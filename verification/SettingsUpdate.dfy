/** routes.go updateProfile and DatabaseEngine/UsersRepo.go UpdateUserSettings: a SET list built from
    optional fields, and the record update that Postgres makes of it. */
module SettingsUpdate {
  import opened Wrappers
  import opened GoStrings
  import opened Decimal
  import opened Accounts

  // ---- writing the statement ----

  /** fmt.Sprintf("<column> = $%d", place). */
  function Clause(column: string, place: nat): string {
    column + " = $" + FormatInt(place)
  }

  /** UpdateUserSettings numbers the row id after all arguments. */
  function UpdateQuery(clauses: seq<string>, place: nat): string {
    "UPDATE accounts.users SET " + Join(clauses, ", ") + " WHERE user_id = $" + FormatInt(place)
  }

  /** One clause a column, numbered from first. */
  function Clauses(columns: seq<string>, first: nat): seq<string> {
    if columns == [] then [] else [Clause(columns[0], first)] + Clauses(columns[1..], first + 1)
  }

  // ---- reading a statement ----

  datatype Assignment = Assignment(column: string, place: nat)

  datatype Statement = Statement(sets: seq<Assignment>, where: nat)

  function ParsePlace(word: string): Option<nat> {
    if HasPrefix(word, "$") then ParseNat(word[1..]) else None
  }

  /** column = $n, column = $n, ... up to the first value without a comma, and the words that remain. */
  function ParseSets(words: seq<string>): Option<(seq<Assignment>, seq<string>)> {
    if |words| < 3 || words[1] != "=" then None
    else
      var value := words[2];
      if value != "" && value[|value| - 1] == ',' then
        match (ParsePlace(value[..|value| - 1]), ParseSets(words[3..]))
        case (Some(k), Some((sets, rest))) => Some(([Assignment(words[0], k)] + sets, rest))
        case _ => None
      else
        match ParsePlace(value)
        case Some(k) => Some(([Assignment(words[0], k)], words[3..]))
        case None => None
  }

  function ParseWhere(words: seq<string>): Option<nat> {
    if |words| == 4 && words[..3] == ["WHERE", "user_id", "="] then ParsePlace(words[3]) else None
  }

  function ParseUpdate(query: string): Option<Statement> {
    ParseStatement(Split(query, " "))
  }

  const VERB: seq<string> := ["UPDATE", "accounts.users", "SET"]

  function ParseStatement(words: seq<string>): Option<Statement> {
    if |words| < 3 || words[..3] != VERB then None
    else
      match ParseSets(words[3..])
      case None => None
      case Some((sets, rest)) =>
        match ParseWhere(rest)
        case None => None
        case Some(place) => Some(Statement(sets, place))
  }

  // ---- reading what was written ----

  /** The assignments a list of columns stands for: placeholders first, first + 1, ..., each once. */
  function Numbered(columns: seq<string>, first: nat): (sets: seq<Assignment>)
    ensures |sets| == |columns|
    ensures forall i :: 0 <= i < |columns| ==> sets[i] == Assignment(columns[i], first + i)
  {
    seq(|columns|, i requires 0 <= i < |columns| => Assignment(columns[i], first + i))
  }

  predicate SpaceFree(words: seq<string>) {
    forall w :: w in words ==> ' ' !in w
  }

  function PlaceWord(place: nat): (word: string)
    ensures word != "" && word[0] == '$' && word[1..] == FormatInt(place)
  {
    "$" + FormatInt(place)
  }

  /** The words of the SET list. */
  function SetWords(columns: seq<string>, first: nat): seq<string> {
    if columns == [] then []
    else if |columns| == 1 then [columns[0], "=", PlaceWord(first)]
    else [columns[0], "=", PlaceWord(first) + ","] + SetWords(columns[1..], first + 1)
  }

  lemma {:induction false} JoinAppend(a: seq<string>, b: seq<string>, sep: string)
    requires a != [] && b != []
    ensures Join(a + b, sep) == Join(a, sep) + sep + Join(b, sep)
  {
    if |a| == 1 {
      assert (a + b)[1..] == b;
    } else {
      assert (a + b)[1..] == a[1..] + b;
      JoinAppend(a[1..], b, sep);
    }
  }

  lemma JoinThree(a: string, b: string, c: string)
    ensures Join([a, b, c], " ") == a + " " + b + " " + c
  {
    assert [a, b, c][1..] == [b, c] && [b, c][1..] == [c];
    assert Join([b, c], " ") == b + " " + c;
  }

  function WhereWords(place: nat): seq<string> {
    ["WHERE", "user_id", "=", PlaceWord(place)]
  }

  lemma JoinVerb()
    ensures Join(VERB, " ") + " " == "UPDATE accounts.users SET "
  {
    JoinThree("UPDATE", "accounts.users", "SET");
  }

  lemma JoinWhere(place: nat)
    ensures " " + Join(WhereWords(place), " ") == " WHERE user_id = $" + FormatInt(place)
  {
    JoinThree("user_id", "=", PlaceWord(place));
    assert WhereWords(place)[1..] == ["user_id", "=", PlaceWord(place)];
  }

  lemma LastClause(column: string, place: nat)
    ensures Join([column, "=", PlaceWord(place)], " ") == Clause(column, place)
  {
    JoinThree(column, "=", PlaceWord(place));
  }

  lemma NextClause(column: string, place: nat, rest: string)
    ensures Join([column, "=", PlaceWord(place) + ","], " ") + " " + rest == Clause(column, place) + ", " + rest
  {
    hide FormatInt;
    JoinThree(column, "=", PlaceWord(place) + ",");
    var number := FormatInt(place);
    assert " " + "=" + " " + ("$" + number + ",") + " " == " = $" + number + ", ";
  }

  lemma {:induction false} ClausesAsWords(columns: seq<string>, first: nat)
    requires columns != []
    ensures SetWords(columns, first) != []
    ensures Join(Clauses(columns, first), ", ") == Join(SetWords(columns, first), " ")
  {
    hide PlaceWord, Clause, FormatInt, Join;
    if |columns| == 1 {
      LastClause(columns[0], first);
      assert Clauses(columns[1..], first + 1) == [];
      assert Clauses(columns, first) == [Clause(columns[0], first)];
      JoinOne(Clause(columns[0], first), ", ");
    } else {
      var rest := columns[1..];
      ClausesAsWords(rest, first + 1);
      NextClause(columns[0], first, Join(SetWords(rest, first + 1), " "));
      JoinAppend([columns[0], "=", PlaceWord(first) + ","], SetWords(rest, first + 1), " ");
      assert Clauses(rest, first + 1) != [];
      JoinOne(Clause(columns[0], first), ", ");
      JoinAppend([Clause(columns[0], first)], Clauses(rest, first + 1), ", ");
    }
  }

  function StatementWords(middle: seq<string>, place: nat): seq<string> {
    VERB + middle + WhereWords(place)
  }

  lemma FixedWords(place: nat)
    ensures |VERB| == 3 && WhereWords(place) != []
    ensures SpaceFree(VERB) && SpaceFree(WhereWords(place))
    ensures ParseWhere(WhereWords(place)) == Some(place)
  {
    hide PlaceWord, ParsePlace;
    PlaceWordSpaceFree(place);
    ParsePlaceWord(place);
  }

  lemma Regroup(a: string, b: string, c: string)
    ensures a + " " + b + " " + c == (a + " ") + b + (" " + c)
  {
  }

  lemma PlaceWordSpaceFree(place: nat)
    ensures ' ' !in PlaceWord(place)
  {
    FormatIntLacks(place, ' ');
  }

  lemma StatementText(middle: seq<string>, place: nat)
    requires middle != []
    ensures Join(StatementWords(middle, place), " ")
         == "UPDATE accounts.users SET " + Join(middle, " ") + " WHERE user_id = $" + FormatInt(place)
  {
    hide Join, FormatInt, VERB, WhereWords;
    var verb, where := VERB, WhereWords(place);
    FixedWords(place);
    JoinAppend(verb, middle, " ");
    JoinAppend(verb + middle, where, " ");
    JoinVerb();
    JoinWhere(place);
    Regroup(Join(verb, " "), Join(middle, " "), Join(where, " "));
  }

  lemma FormatIntLacks(place: nat, c: char)
    requires !IsDigit(c)
    ensures c !in FormatInt(place)
  {
  }

  lemma {:induction false} SetWordsSpaceFree(columns: seq<string>, first: nat)
    requires SpaceFree(columns)
    ensures SpaceFree(SetWords(columns, first))
  {
    if columns != [] {
      FormatIntLacks(first, ' ');
      assert columns[0] in columns;
      SetWordsSpaceFree(columns[1..], first + 1);
    }
  }

  lemma ParsePlaceWord(place: nat)
    ensures ParsePlace(PlaceWord(place)) == Some(place)
    ensures PlaceWord(place)[|PlaceWord(place)| - 1] != ','
  {
    ParseNatFormatNat(place);
  }

  lemma {:induction false} ParseSetWords(columns: seq<string>, first: nat, rest: seq<string>)
    requires columns != []
    ensures ParseSets(SetWords(columns, first) + rest) == Some((Numbered(columns, first), rest))
  {
    hide PlaceWord, FormatInt, ParsePlace, ParseSets, Numbered;
    if |columns| == 1 {
      ParseLastSet(columns[0], first, rest);
      assert Numbered(columns, first) == [Assignment(columns[0], first)];
    } else {
      var later := columns[1..];
      ParseSetWords(later, first + 1, rest);
      ParseNextSet(columns[0], first, SetWords(later, first + 1) + rest);
      assert [columns[0], "=", PlaceWord(first) + ","] + SetWords(later, first + 1) + rest
          == [columns[0], "=", PlaceWord(first) + ","] + (SetWords(later, first + 1) + rest);
      assert Numbered(columns, first) == [Assignment(columns[0], first)] + Numbered(later, first + 1);
    }
  }

  lemma ParseLastSet(column: string, place: nat, rest: seq<string>)
    ensures ParseSets([column, "=", PlaceWord(place)] + rest) == Some(([Assignment(column, place)], rest))
  {
    hide PlaceWord, FormatInt, ParsePlace;
    ParsePlaceWord(place);
    assert ([column, "=", PlaceWord(place)] + rest)[3..] == rest;
  }

  lemma ParseNextSet(column: string, place: nat, words: seq<string>)
    requires ParseSets(words).Some?
    ensures ParseSets([column, "=", PlaceWord(place) + ","] + words)
         == Some(([Assignment(column, place)] + ParseSets(words).value.0, ParseSets(words).value.1))
  {
    hide PlaceWord, FormatInt, ParsePlace;
    ParsePlaceWord(place);
    var all := [column, "=", PlaceWord(place) + ","] + words;
    assert all[3..] == words && all[2] == PlaceWord(place) + ",";
    assert all[2][..|all[2]| - 1] == PlaceWord(place);
  }

  lemma SplitStatement(middle: seq<string>, place: nat)
    requires SpaceFree(middle) && middle != []
    ensures var query := "UPDATE accounts.users SET " + Join(middle, " ") + " WHERE user_id = $" + FormatInt(place);
            Split(query, " ") == StatementWords(middle, place)
  {
    hide Join, FormatInt, VERB, WhereWords;
    FixedWords(place);
    StatementText(middle, place);
    assert SpaceFree(VERB + middle + WhereWords(place));
    SplitJoin(VERB + middle + WhereWords(place), " ");
  }

  lemma ParseStatementWords(middle: seq<string>, place: nat, sets: seq<Assignment>)
    requires ParseSets(middle + WhereWords(place)) == Some((sets, WhereWords(place)))
    ensures ParseStatement(StatementWords(middle, place)) == Some(Statement(sets, place))
  {
    hide ParseSets, ParseWhere, WhereWords, VERB;
    FixedWords(place);
    var words := StatementWords(middle, place);
    assert words[..3] == VERB && words[3..] == middle + WhereWords(place);
  }

  /** Reading a written statement gives its columns in order with the placeholders $1..$n, each exactly
      once, and the placeholder after them for the row. */
  lemma ParseRendered(columns: seq<string>)
    requires columns != [] && SpaceFree(columns)
    ensures ParseUpdate(UpdateQuery(Clauses(columns, 1), |columns| + 1))
         == Some(Statement(Numbered(columns, 1), |columns| + 1))
  {
    hide SetWords, ParseSets, ParseStatement, StatementWords, Numbered, Join, Split, FormatInt, Clauses;
    var place, middle := |columns| + 1, SetWords(columns, 1);
    ClausesAsWords(columns, 1);
    SetWordsSpaceFree(columns, 1);
    SplitStatement(middle, place);
    ParseSetWords(columns, 1, WhereWords(place));
    ParseStatementWords(middle, place, Numbered(columns, 1));
  }

  lemma BlankListText()
    ensures Join([], ", ") == Join([""], " ")
  {
  }

  /** An empty list of clauses is not a statement. */
  lemma EmptyListIsRefused(place: nat)
    ensures ParseUpdate(UpdateQuery([], place)) == None
  {
    hide Join, Split, PlaceWord, FormatInt, VERB;
    BlankListText();
    FixedWords(place);
    SplitStatement([""], place);
    var words := StatementWords([""], place);
    assert words[3..] == [""] + WhereWords(place);
    assert words[3..][1] == "WHERE" != "=";
  }

  // ---- executing a statement ----

  datatype SqlValue = Null | Text(text: string) | BigInt(id: int64)

  /** The columns of accounts.users that carry text and are not keys. */
  datatype Column = FirstName | MiddleName | LastName | PublicUsername | CountryCode | Password

  function ColumnText(c: Column): string {
    match c
    case FirstName => "first_name"
    case MiddleName => "middle_name"
    case LastName => "last_name"
    case PublicUsername => "publicusername"
    case CountryCode => "countrycode"
    case Password => "password"
  }

  function ColumnNamed(name: string): Option<Column> {
    if name == "first_name" then Some(FirstName)
    else if name == "middle_name" then Some(MiddleName)
    else if name == "last_name" then Some(LastName)
    else if name == "publicusername" then Some(PublicUsername)
    else if name == "countrycode" then Some(CountryCode)
    else if name == "password" then Some(Password)
    else None
  }

  function OfOption(o: Option<string>): SqlValue {
    match o
    case None => Null
    case Some(text) => Text(text)
  }

  function Read(a: Account, c: Column): SqlValue {
    match c
    case FirstName => Text(a.firstName)
    case MiddleName => OfOption(a.middleName)
    case LastName => OfOption(a.lastName)
    case PublicUsername => OfOption(a.username)
    case CountryCode => OfOption(a.countryCode)
    case Password => Text(a.password)
  }

  /** NOT NULL, and the text the column type takes; fits stands for the VARCHAR limits. */
  predicate Storable(c: Column, v: SqlValue, fits: (Column, string) -> bool) {
    match v
    case Null => !c.FirstName? && !c.Password?
    case Text(text) => fits(c, text)
    case BigInt(_) => false
  }

  function Write(a: Account, c: Column, v: SqlValue): Account
    requires !v.BigInt? && (v.Null? ==> !c.FirstName? && !c.Password?)
  {
    var text := if v.Text? then Some(v.text) else None;
    match c
    case FirstName => a.(firstName := v.text)
    case MiddleName => a.(middleName := text)
    case LastName => a.(lastName := text)
    case PublicUsername => a.(username := text)
    case CountryCode => a.(countryCode := text)
    case Password => a.(password := v.text)
  }

  type Sets = seq<(Column, SqlValue)>

  predicate AllStorable(sets: Sets, fits: (Column, string) -> bool) {
    forall i :: 0 <= i < |sets| ==> Storable(sets[i].0, sets[i].1, fits)
  }

  function WriteAll(a: Account, sets: Sets, fits: (Column, string) -> bool): Account
    requires AllStorable(sets, fits)
    decreases |sets|
  {
    if sets == [] then a else WriteAll(Write(a, sets[0].0, sets[0].1), sets[1..], fits)
  }

  /** Each column with its argument: unknown columns, places without an argument and numbers for text fail. */
  function Resolve(sets: seq<Assignment>, args: seq<SqlValue>): Option<Sets> {
    if sets == [] then Some([])
    else
      match (ColumnNamed(sets[0].column), Resolve(sets[1..], args))
      case (Some(c), Some(rest)) =>
        if 1 <= sets[0].place <= |args| && !args[sets[0].place - 1].BigInt?
        then Some([(c, args[sets[0].place - 1])] + rest) else None
      case _ => None
  }

  predicate DistinctColumns(sets: Sets) {
    forall i, j :: 0 <= i < j < |sets| ==> sets[i].0 != sets[j].0
  }

  /** The statement run with its arguments; None is the error Postgres or its driver answers. */
  function Execute(t: Table, query: string, args: seq<SqlValue>, fits: (Column, string) -> bool): Option<Table> {
    match ParseUpdate(query)
    case None => None
    case Some(statement) => Run(t, statement, args, fits)
  }

  function Run(t: Table, statement: Statement, args: seq<SqlValue>, fits: (Column, string) -> bool): Option<Table> {
    match Resolve(statement.sets, args)
    case None => None
    case Some(sets) =>
      if !DistinctColumns(sets) || statement.where != |args| || |args| == 0 || !args[|args| - 1].BigInt? then None
      else
        var id := args[|args| - 1].id;
        if id !in t.rows then Some(t)
        else if !AllStorable(sets, fits) then None
        else Some(t.(rows := t.rows[id := WriteAll(t.rows[id], sets, fits)]))
  }

  // ---- the statement is the record update ----

  function ColumnTexts(sets: Sets): (texts: seq<string>)
    ensures |texts| == |sets| && forall i :: 0 <= i < |sets| ==> texts[i] == ColumnText(sets[i].0)
  {
    seq(|sets|, i requires 0 <= i < |sets| => ColumnText(sets[i].0))
  }

  function Values(sets: Sets): (values: seq<SqlValue>)
    ensures |values| == |sets| && forall i :: 0 <= i < |sets| ==> values[i] == sets[i].1
  {
    seq(|sets|, i requires 0 <= i < |sets| => sets[i].1)
  }

  /** No value is a number. */
  predicate TextValues(sets: Sets) {
    forall i :: 0 <= i < |sets| ==> !sets[i].1.BigInt?
  }

  lemma ColumnNames(c: Column)
    ensures ColumnNamed(ColumnText(c)) == Some(c) && ' ' !in ColumnText(c)
  {
  }

  lemma {:induction false} ResolveNumbered(sets: Sets, first: nat, before: seq<SqlValue>, after: seq<SqlValue>)
    requires |before| + 1 == first
    requires forall i :: 0 <= i < |sets| ==> !sets[i].1.BigInt?
    ensures Resolve(Numbered(ColumnTexts(sets), first), before + Values(sets) + after) == Some(sets)
  {
    hide ColumnNamed, ColumnText;
    if sets == [] {
      assert Numbered(ColumnTexts(sets), first) == [];
    } else {
      var numbered := Numbered(ColumnTexts(sets), first);
      var args := before + Values(sets) + after;
      assert numbered[1..] == Numbered(ColumnTexts(sets[1..]), first + 1);
      assert args == (before + [sets[0].1]) + Values(sets[1..]) + after;
      ResolveNumbered(sets[1..], first + 1, before + [sets[0].1], after);
      ColumnNames(sets[0].0);
      assert args[first - 1] == sets[0].1;
      assert numbered[0] == Assignment(ColumnText(sets[0].0), first);
      assert sets == [sets[0]] + sets[1..];
    }
  }

  /** Exactly the listed columns change, each to its own value. */
  predicate ChangesExactly(a: Account, b: Account, sets: Sets) {
    && (forall i :: 0 <= i < |sets| ==> Read(b, sets[i].0) == sets[i].1)
    && (forall c :: (forall i :: 0 <= i < |sets| ==> sets[i].0 != c) ==> Read(b, c) == Read(a, c))
    && b.userId == a.userId && b.email == a.email && b.isVerified == a.isVerified
  }

  lemma WriteChanges(a: Account, c: Column, v: SqlValue, d: Column)
    requires !v.BigInt? && (v.Null? ==> !c.FirstName? && !c.Password?)
    ensures var b := Write(a, c, v);
            && Read(b, d) == (if c == d then v else Read(a, d))
            && b.userId == a.userId && b.email == a.email && b.isVerified == a.isVerified
  {
  }

  lemma {:induction false} WriteAllReads(a: Account, sets: Sets, fits: (Column, string) -> bool, d: Column)
    requires AllStorable(sets, fits) && DistinctColumns(sets)
    ensures var b := WriteAll(a, sets, fits);
            && (forall i :: 0 <= i < |sets| && sets[i].0 == d ==> Read(b, d) == sets[i].1)
            && ((forall i :: 0 <= i < |sets| ==> sets[i].0 != d) ==> Read(b, d) == Read(a, d))
            && b.userId == a.userId && b.email == a.email && b.isVerified == a.isVerified
    decreases |sets|
  {
    hide Write, Read;
    if sets != [] {
      var w := Write(a, sets[0].0, sets[0].1);
      WriteChanges(a, sets[0].0, sets[0].1, d);
      WriteAllReads(w, sets[1..], fits, d);
      var b := WriteAll(a, sets, fits);
      forall i | 0 <= i < |sets| && sets[i].0 == d ensures Read(b, d) == sets[i].1 {
        if i == 0 {
          assert forall j :: 0 <= j < |sets[1..]| ==> sets[1..][j].0 != d;
        } else {
          assert sets[1..][i - 1] == sets[i];
        }
      }
    }
  }

  lemma WriteAllChangesExactly(a: Account, sets: Sets, fits: (Column, string) -> bool)
    requires AllStorable(sets, fits) && DistinctColumns(sets)
    ensures ChangesExactly(a, WriteAll(a, sets, fits), sets)
  {
    hide WriteAll, Read;
    forall d: Column
      ensures forall i :: 0 <= i < |sets| && sets[i].0 == d ==> Read(WriteAll(a, sets, fits), d) == sets[i].1
    {
      WriteAllReads(a, sets, fits, d);
    }
    forall c | forall i :: 0 <= i < |sets| ==> sets[i].0 != c
      ensures Read(WriteAll(a, sets, fits), c) == Read(a, c)
    {
      WriteAllReads(a, sets, fits, c);
    }
    WriteAllReads(a, sets, fits, FirstName);
  }

  /** The statement UpdateUserSettings sends for these columns and values. */
  function SettingsQuery(sets: Sets): string {
    UpdateQuery(Clauses(ColumnTexts(sets), 1), |sets| + 1)
  }

  lemma SettingsQueryParses(sets: Sets)
    requires sets != []
    ensures ParseUpdate(SettingsQuery(sets)) == Some(Statement(Numbered(ColumnTexts(sets), 1), |sets| + 1))
  {
    hide ParseUpdate, UpdateQuery, Clauses, ColumnText;
    forall c | c in ColumnTexts(sets) ensures ' ' !in c {
      var i :| 0 <= i < |sets| && ColumnTexts(sets)[i] == c;
      ColumnNames(sets[i].0);
    }
    ParseRendered(ColumnTexts(sets));
  }

  /** The update of the listed columns: it succeeds exactly when the list is not empty, names no column
      twice, and the row is absent or can store the values; and then it changes exactly the listed columns
      of exactly that row. */
  ghost predicate UpdatesRow(t: Table, result: Option<Table>, sets: Sets, id: int64, fits: (Column, string) -> bool) {
    && (result.Some? <==> sets != [] && DistinctColumns(sets) && (id in t.rows ==> AllStorable(sets, fits)))
    && (result.Some? ==>
          && result.value.byEmail == t.byEmail && result.value.rows.Keys == t.rows.Keys
          && (forall u :: u in t.rows && u != id ==> result.value.rows[u] == t.rows[u])
          && (id in t.rows ==> ChangesExactly(t.rows[id], result.value.rows[id], sets)))
  }

  /** For any list of text columns and values, that is what the sent statement does. */
  lemma SettingsUpdateIsRecordUpdate(t: Table, sets: Sets, id: int64, fits: (Column, string) -> bool)
    requires TextValues(sets)
    ensures UpdatesRow(t, Execute(t, SettingsQuery(sets), Values(sets) + [BigInt(id)], fits), sets, id, fits)
  {
    hide ParseUpdate, SettingsQuery, WriteAll, ChangesExactly, Resolve, AllStorable;
    if sets == [] {
      EmptySettings();
    } else {
      SettingsQueryParses(sets);
      ResolveNumbered(sets, 1, [], [BigInt(id)]);
      assert [] + Values(sets) + [BigInt(id)] == Values(sets) + [BigInt(id)];
      if id in t.rows && AllStorable(sets, fits) && DistinctColumns(sets) {
        WriteAllChangesExactly(t.rows[id], sets, fits);
      }
    }
  }

  lemma EmptySettings()
    ensures ParseUpdate(SettingsQuery([])) == None
  {
    hide ParseUpdate, UpdateQuery;
    EmptyListIsRefused(1);
    assert ColumnTexts([]) == [];
  }

  // ---- PUT /update ----

  datatype ProfileBody = ProfileBody(
    firstName: Option<string>, middleName: Option<string>, lastName: Option<string>)

  method UpdateUserSettings(ur: UsersRepo, args: seq<SqlValue>, clauses: seq<string>, userID: int64,
                            fits: (Column, string) -> bool) returns (ok: bool)
    modifies ur
    ensures var result := Execute(old(ur.Contents()), UpdateQuery(clauses, |args| + 1), args + [BigInt(userID)], fits);
            ok == result.Some? && ur.Contents() == result.GetOr(old(ur.Contents()))
    ensures forall sets :: (TextValues(sets) && args == Values(sets) && clauses == Clauses(ColumnTexts(sets), 1)) ==>
              UpdatesRow(old(ur.Contents()), if ok then Some(ur.Contents()) else None, sets, userID, fits)
  {
    hide Clauses, UpdatesRow;
    forall sets | TextValues(sets) && args == Values(sets) && clauses == Clauses(ColumnTexts(sets), 1)
      ensures UpdatesRow(ur.Contents(),
                         Execute(ur.Contents(), UpdateQuery(clauses, |args| + 1), args + [BigInt(userID)], fits),
                         sets, userID, fits)
    {
      SettingsUpdateIsRecordUpdate(ur.Contents(), sets, userID, fits);
    }
    var allArgs := args + [BigInt(userID)];
    var query := UpdateQuery(clauses, |allArgs|);
    var result := Execute(ur.Contents(), query, allArgs, fits);
    ok := result.Some?;
    if ok {
      ur.rows, ur.byEmail := result.value.rows, result.value.byEmail;
    }
  }

  /** The names a profile edit leaves: a missing middle name is cleared, other missing names stay. */
  function Edited(a: Account, body: ProfileBody): Account {
    a.(firstName := body.firstName.GetOr(a.firstName), middleName := body.middleName,
       lastName := if body.lastName.Some? then body.lastName else a.lastName)
  }

  predicate Fits(body: ProfileBody, fits: (Column, string) -> bool) {
    && (body.firstName.Some? ==> fits(FirstName, body.firstName.value))
    && (body.middleName.Some? ==> fits(MiddleName, body.middleName.value))
    && (body.lastName.Some? ==> fits(LastName, body.lastName.value))
  }

  /** The columns and values a body stands for. */
  function ProfileSets(body: ProfileBody): Sets {
    (if body.firstName.Some? then [(FirstName, Text(body.firstName.value))] else [])
    + [(MiddleName, OfOption(body.middleName))]
    + (if body.lastName.Some? then [(LastName, Text(body.lastName.value))] else [])
  }

  /** The effect on the table, stated on the record: the row with that id, when it exists and the names fit. */
  function ProfileEdit(t: Table, id: int64, body: ProfileBody, fits: (Column, string) -> bool): Table {
    if id in t.rows && Fits(body, fits) then t.(rows := t.rows[id := Edited(t.rows[id], body)]) else t
  }

  lemma ChangesDetermine(a: Account, b: Account, body: ProfileBody)
    requires ChangesExactly(a, b, ProfileSets(body))
    ensures b == Edited(a, body)
  {
    var sets := ProfileSets(body);
    var m := if body.firstName.Some? then 1 else 0;
    assert sets[m] == (MiddleName, OfOption(body.middleName));
    assert Read(b, MiddleName) == OfOption(body.middleName);
    if body.firstName.Some? {
      assert sets[0] == (FirstName, Text(body.firstName.value));
    }
    if body.lastName.Some? {
      assert sets[m + 1] == (LastName, Text(body.lastName.value));
    }
    assert Read(b, PublicUsername) == Read(a, PublicUsername);
    assert Read(b, CountryCode) == Read(a, CountryCode);
    assert Read(b, Password) == Read(a, Password);
    assert body.firstName.None? ==> Read(b, FirstName) == Read(a, FirstName);
    assert body.lastName.None? ==> Read(b, LastName) == Read(a, LastName);
  }

  lemma ProfileSetsFacts(body: ProfileBody, fits: (Column, string) -> bool)
    ensures ProfileSets(body) != [] && DistinctColumns(ProfileSets(body))
    ensures forall i :: 0 <= i < |ProfileSets(body)| ==> !ProfileSets(body)[i].1.BigInt?
    ensures AllStorable(ProfileSets(body), fits) == Fits(body, fits)
  {
    var sets := ProfileSets(body);
    var m := if body.firstName.Some? then 1 else 0;
    assert sets[m] == (MiddleName, OfOption(body.middleName));
    if body.firstName.Some? {
      assert sets[0] == (FirstName, Text(body.firstName.value));
    }
    if body.lastName.Some? {
      assert sets[m + 1] == (LastName, Text(body.lastName.value));
    }
  }

  /** Edited is what the columns say, so the two descriptions of the update agree. */
  lemma ProfileUpdate(t: Table, id: int64, body: ProfileBody, fits: (Column, string) -> bool)
    ensures var sets := ProfileSets(body);
            var result := Execute(t, SettingsQuery(sets), Values(sets) + [BigInt(id)], fits);
            && (result.Some? <==> id !in t.rows || Fits(body, fits))
            && result.GetOr(t) == ProfileEdit(t, id, body, fits)
  {
    hide Execute, SettingsQuery, Edited, ChangesExactly, Fits, ProfileSets, AllStorable, DistinctColumns;
    var sets := ProfileSets(body);
    ProfileSetsFacts(body, fits);
    SettingsUpdateIsRecordUpdate(t, sets, id, fits);
    var result := Execute(t, SettingsQuery(sets), Values(sets) + [BigInt(id)], fits);
    if result.Some? && id in t.rows {
      ChangesDetermine(t.rows[id], result.value.rows[id], body);
      assert result.value.rows == t.rows[id := Edited(t.rows[id], body)];
    } else if result.Some? {
      assert result.value.rows == t.rows;
    }
  }

  lemma {:induction false} ClausesAppend(columns: seq<string>, column: string, first: nat)
    ensures Clauses(columns + [column], first) == Clauses(columns, first) + [Clause(column, first + |columns|)]
  {
    hide Clause;
    if columns == [] {
      assert Clauses([column][1..], first + 1) == [];
    } else {
      assert (columns + [column])[1..] == columns[1..] + [column];
      ClausesAppend(columns[1..], column, first + 1);
    }
  }

  lemma ColumnTextsOfNames()
    ensures ColumnText(FirstName) == "first_name" && ColumnText(MiddleName) == "middle_name"
    ensures ColumnText(LastName) == "last_name"
  {
  }

  lemma NoClauses()
    ensures Clauses([], 1) == []
  {
  }

  /** One append to args and to setClauses is one more column in the list. */
  lemma OneMore(sets: Sets, c: Column, v: SqlValue)
    ensures Values(sets + [(c, v)]) == Values(sets) + [v]
    ensures Clauses(ColumnTexts(sets + [(c, v)]), 1)
         == Clauses(ColumnTexts(sets), 1) + [Clause(ColumnText(c), |sets| + 1)]
  {
    hide ColumnText, Clause, Clauses;
    assert ColumnTexts(sets + [(c, v)]) == ColumnTexts(sets) + [ColumnText(c)];
    ClausesAppend(ColumnTexts(sets), ColumnText(c), 1);
  }

  /** Answers is what is written to the client: after a failed update the handler goes on and also
      reports success. */
  datatype Answer = ServerError | Success

  function ProfileAnswers(t: Table, id: int64, body: ProfileBody, fits: (Column, string) -> bool): seq<Answer> {
    if id !in t.rows || Fits(body, fits) then [Success] else [ServerError, Success]
  }

  method UpdateProfile(ur: UsersRepo, userID: int64, body: ProfileBody, fits: (Column, string) -> bool)
    returns (answers: seq<Answer>)
    modifies ur
    ensures ur.Contents() == ProfileEdit(old(ur.Contents()), userID, body, fits)
    ensures answers == ProfileAnswers(old(ur.Contents()), userID, body, fits)
  {
    hide Clause, Clauses, ColumnText, Execute, UpdateQuery, Edited, Fits, FormatInt, UpdatesRow, TextValues;
    ColumnTextsOfNames();
    var args: seq<SqlValue>, setClauses: seq<string> := [], [];
    ghost var sets: Sets := [];
    assert Values([]) == [] && ColumnTexts([]) == [];
    NoClauses();
    if body.firstName.Some? {
      setClauses := setClauses + [Clause("first_name", |args| + 1)];
      args := args + [Text(body.firstName.value)];
      OneMore(sets, FirstName, Text(body.firstName.value));
      sets := sets + [(FirstName, Text(body.firstName.value))];
    }
    OneMore(sets, MiddleName, OfOption(body.middleName));
    if body.middleName.Some? {
      setClauses := setClauses + [Clause("middle_name", |args| + 1)];
      args := args + [Text(body.middleName.value)];
    } else {
      setClauses := setClauses + [Clause("middle_name", |args| + 1)];
      args := args + [Null];
    }
    sets := sets + [(MiddleName, OfOption(body.middleName))];
    if body.lastName.Some? {
      setClauses := setClauses + [Clause("last_name", |args| + 1)];
      args := args + [Text(body.lastName.value)];
      OneMore(sets, LastName, Text(body.lastName.value));
      sets := sets + [(LastName, Text(body.lastName.value))];
    }
    assert args == Values(sets) && sets == ProfileSets(body);
    assert setClauses == Clauses(ColumnTexts(sets), 1);
    ProfileUpdate(ur.Contents(), userID, body, fits);
    var ok := UpdateUserSettings(ur, args, setClauses, userID, fits);
    answers := [];
    if !ok {
      answers := [ServerError];
    }
    answers := answers + [Success];
  }
}
