/**
 * The proxy callback that backs the ORM: classify the statement, run it on a
 * freshly opened SQLite connection, reshape the rows, and always close the
 * connection. The database's answers are inputs.
 */
module SqlProxy {
  import opened Wrappers
  import opened Text

  // ---------------------------------------------------------------------------
  // `isSelectQuery`: /^\s*SELECT\b/i
  // ---------------------------------------------------------------------------

  /** A word character of `\b` outside Unicode mode: `[A-Za-z0-9_]`. */
  predicate IsWordChar(c: char) {
    ('a' <= c <= 'z') || ('A' <= c <= 'Z') || ('0' <= c <= '9') || c == '_'
  }

  /** ASCII case-insensitive equality, as the `i` flag compares without Unicode mode. */
  predicate SameLetterIgnoringCase(c: char, lower: char)
    requires 'a' <= lower <= 'z'
  {
    c == lower || c as int == lower as int - 32
  }

  /** `select`, in any mix of cases, at position `k` of `s`. */
  predicate KeywordAt(s: string, k: nat) {
    k + 6 <= |s|
    && SameLetterIgnoringCase(s[k], 's') && SameLetterIgnoringCase(s[k + 1], 'e')
    && SameLetterIgnoringCase(s[k + 2], 'l') && SameLetterIgnoringCase(s[k + 3], 'e')
    && SameLetterIgnoringCase(s[k + 4], 'c') && SameLetterIgnoringCase(s[k + 5], 't')
  }

  /** `\b` after a word character: the text ends or a non-word character follows. */
  predicate BoundaryAt(s: string, k: nat)
    requires k <= |s|
  {
    k == |s| || !IsWordChar(s[k])
  }

  /** Only white space before position `k`. */
  predicate BlankBefore(s: string, k: nat)
    requires k <= |s|
  {
    forall j :: 0 <= j < k ==> IsJsSpace(s[j])
  }

  /**
   * `isSelectQuery`: after optional white space, the keyword `select` in any
   * case, followed by the end of the text or a non-word character.
   */
  function IsSelectQuery(sql: string): (r: bool)
    ensures r <==> exists k :: 0 <= k <= |sql| - 6 && BlankBefore(sql, k) && KeywordAt(sql, k) && BoundaryAt(sql, k + 6)
  {
    var k := |sql| - |TrimStart(sql)|;
    KeywordOnlyAfterBlanks(sql);
    KeywordAt(sql, k) && BoundaryAt(sql, k + 6)
  }

  /**
   * The only place a blank prefix can end in the keyword is where `trimStart`
   * stops: before it every character is white space, and `s` is not.
   */
  lemma {:induction false} KeywordOnlyAfterBlanks(sql: string)
    ensures BlankBefore(sql, |sql| - |TrimStart(sql)|)
    ensures forall k' :: 0 <= k' <= |sql| - 6 && BlankBefore(sql, k') && KeywordAt(sql, k')
                         ==> k' == |sql| - |TrimStart(sql)|
  {
    var t := TrimStart(sql);
    var k := |sql| - |t|;
    assert k < |sql| ==> !IsJsSpace(sql[k]) by {
      if k < |sql| { assert t[0] == sql[k]; }
    }
    forall k' | 0 <= k' <= |sql| - 6 && BlankBefore(sql, k') && KeywordAt(sql, k') ensures k' == k {
      assert !IsJsSpace(sql[k']);
    }
  }

  // ---------------------------------------------------------------------------
  // The connection
  // ---------------------------------------------------------------------------

  datatype SqlValue = SqlNull | SqlInteger(i: int) | SqlReal(text: string) | SqlText(s: string)

  /** A result row as the SQL plugin returns it: column name and value, in column order. */
  type Row = seq<(string, SqlValue)>

  datatype Call = SelectCall | ExecuteCall

  datatype Statement = Statement(call: Call, sql: string, params: seq<string>)

  /** A connection from `Database.load`; the database behind it answers through the given results. */
  class Connection {
    var closed: bool
    var sent: seq<Statement>

    constructor ()
      ensures !closed && sent == []
    {
      closed := false;
      sent := [];
    }

    /** `sqlite.select`. */
    method Select(sql: string, params: seq<string>, answer: Result<seq<Row>, string>) returns (r: Result<seq<Row>, string>)
      requires !closed
      modifies this
      ensures r == answer && !closed
      ensures sent == old(sent) + [Statement(SelectCall, sql, params)]
    {
      sent := sent + [Statement(SelectCall, sql, params)];
      r := answer;
    }

    /** `sqlite.execute`. */
    method Execute(sql: string, params: seq<string>, answer: Result<int, string>) returns (r: Result<int, string>)
      requires !closed
      modifies this
      ensures r == answer && !closed
      ensures sent == old(sent) + [Statement(ExecuteCall, sql, params)]
    {
      sent := sent + [Statement(ExecuteCall, sql, params)];
      r := answer;
    }

    /** `sqlite.close`. */
    method Close()
      modifies this
      ensures closed && sent == old(sent)
    {
      closed := true;
    }
  }

  // ---------------------------------------------------------------------------
  // The callback
  // ---------------------------------------------------------------------------

  /** `{rows: …}`: every row for `all`, else the first row, which may be missing. */
  datatype ProxyResult = AllRows(rows: seq<seq<SqlValue>>) | FirstRow(row: Option<seq<SqlValue>>)

  /** `Object.values(row)`: the row's values in column order. */
  function Values(row: Row): (vs: seq<SqlValue>)
    ensures |vs| == |row|
    ensures forall i :: 0 <= i < |row| ==> vs[i] == row[i].1
  {
    if row == [] then [] else [row[0].1] + Values(row[1..])
  }

  function AllValues(rows: seq<Row>): (vss: seq<seq<SqlValue>>)
    ensures |vss| == |rows|
    ensures forall i :: 0 <= i < |rows| ==> vss[i] == Values(rows[i])
  {
    if rows == [] then [] else [Values(rows[0])] + AllValues(rows[1..])
  }

  /** What the callback returns, given the statement and the database's answers. */
  function ProxyAnswer(sql: string, method_: string, selectAnswer: Result<seq<Row>, string>): ProxyResult {
    if !IsSelectQuery(sql) then AllRows([])
    else match selectAnswer
      case Err(_) => AllRows([])
      case Ok(rows) =>
        var vss := AllValues(rows);
        if method_ == "all" then AllRows(vss)
        else FirstRow(if |vss| > 0 then Some(vss[0]) else None)
  }

  /**
   * The proxy callback: open a connection, select or execute, reshape, and
   * close the connection on every path (early return and error included).
   */
  method Proxy(sql: string, params: seq<string>, method_: string,
               selectAnswer: Result<seq<Row>, string>, executeAnswer: Result<int, string>)
    returns (result: ProxyResult, conn: Connection)
    ensures fresh(conn) && conn.closed
    ensures conn.sent == [Statement(if IsSelectQuery(sql) then SelectCall else ExecuteCall, sql, params)]
    ensures result == ProxyAnswer(sql, method_, selectAnswer)
  {
    conn := new Connection();
    if IsSelectQuery(sql) {
      var rows := conn.Select(sql, params, selectAnswer);
      conn.Close();
      match rows {
        case Err(_) => result := AllRows([]);
        case Ok(rs) =>
          var vss := AllValues(rs);
          result := if method_ == "all" then AllRows(vss) else FirstRow(if |vss| > 0 then Some(vss[0]) else None);
      }
    } else {
      var _ := conn.Execute(sql, params, executeAnswer);
      conn.Close();
      result := AllRows([]);
    }
  }

  /** A statement that is not a SELECT returns `{rows: []}` whatever the database says. */
  lemma {:induction false} MutationReturnsNoRows(sql: string, m: string, answer: Result<seq<Row>, string>)
    requires !IsSelectQuery(sql)
    ensures ProxyAnswer(sql, m, answer) == AllRows([])
  {
  }

  /** A failed SELECT also returns `{rows: []}`: errors are swallowed. */
  lemma {:induction false} ErrorReturnsNoRows(sql: string, m: string, e: string)
    ensures ProxyAnswer(sql, m, Err(e)) == AllRows([])
  {
  }

  /** `all` returns every row, each as its values in column order; other methods only the first. */
  lemma {:induction false} SelectShapes(sql: string, m: string, rows: seq<Row>)
    requires IsSelectQuery(sql)
    ensures m == "all" ==> ProxyAnswer(sql, m, Ok(rows)) == AllRows(AllValues(rows))
    ensures m != "all" && rows != [] ==> ProxyAnswer(sql, m, Ok(rows)) == FirstRow(Some(Values(rows[0])))
    ensures m != "all" && rows == [] ==> ProxyAnswer(sql, m, Ok(rows)) == FirstRow(None)
  {
  }

  /** Leading white space and letter case do not matter. */
  lemma {:induction false} SelectAfterBlanks()
    ensures IsSelectQuery(" \nsElEcT *")
  {
    var a := " \nsElEcT *";
    assert BlankBefore(a, 2) && KeywordAt(a, 2) && BoundaryAt(a, 8);
  }

  /** A longer word that starts with the keyword is not a SELECT. */
  lemma {:induction false} WordCharAfterKeyword(s: string)
    requires |s| > 6 && !IsJsSpace(s[0]) && IsWordChar(s[6])
    ensures !IsSelectQuery(s)
  {
    assert TrimStart(s) == s;
    assert !BoundaryAt(s, 6);
  }
}
