/**
 * The PostgreSQL bootstrap script printed by the `get_db_command` management command,
 * common/management/commands/get_db_command.py. The script is a fixed seven-statement
 * template with the database name, user and password substituted verbatim.
 */
module CommonGetDbCommand {
  import opened Wrappers
  import opened Strings

  /** `get_command(db, user, password)`: each `line +=` appends one formatted statement. */
  function GetCommand(db: string, user: string, password: string): string
  {
    var line := "";
    var line := line + ("CREATE DATABASE " + db + ";\n");
    var line := line + ("CREATE USER " + user + " WITH PASSWORD '" + password + "';\n");
    var line := line + ("ALTER ROLE " + user + " SET client_encoding TO 'utf8';\n");
    var line := line + ("ALTER ROLE " + user + " SET default_transaction_isolation TO 'read committed';\n");
    var line := line + ("ALTER ROLE " + user + " SET timezone TO 'Asia/Kolkata';\n");
    var line := line + ("GRANT ALL PRIVILEGES ON DATABASE " + db + " TO " + user + ";\n");
    var line := line + ("ALTER ROLE " + user + " SUPERUSER;");
    line
  }

  /** The inputs carry no line break, so each statement stays on one line. */
  predicate SingleLine(db: string, user: string, password: string) {
    '\n' !in db && '\n' !in user && '\n' !in password
  }

  /** The seven statements, in the order the script gives them. */
  function Statements(db: string, user: string, password: string): seq<string> {
    [ "CREATE DATABASE " + db + ";",
      "CREATE USER " + user + " WITH PASSWORD '" + password + "';",
      "ALTER ROLE " + user + " SET client_encoding TO 'utf8';",
      "ALTER ROLE " + user + " SET default_transaction_isolation TO 'read committed';",
      "ALTER ROLE " + user + " SET timezone TO 'Asia/Kolkata';",
      "GRANT ALL PRIVILEGES ON DATABASE " + db + " TO " + user + ";",
      "ALTER ROLE " + user + " SUPERUSER;" ]
  }

  lemma Regroup(a: string, b: string, c: string, d: string, e: string, f: string, g: string, n: string)
    ensures "" + (a + n) + (b + n) + (c + n) + (d + n) + (e + n) + (f + n) + g
         == a + n + (b + n + (c + n + (d + n + (e + n + (f + n + g)))))
  {
  }

  lemma JoinSeven(a: string, b: string, c: string, d: string, e: string, f: string, g: string, n: string)
    ensures Join([a, b, c, d, e, f, g], n) == a + n + (b + n + (c + n + (d + n + (e + n + (f + n + g)))))
  {
    assert [a, b, c, d, e, f, g] == [a] + [b, c, d, e, f, g];
    assert [b, c, d, e, f, g] == [b] + [c, d, e, f, g];
    assert [c, d, e, f, g] == [c] + [d, e, f, g];
    assert [d, e, f, g] == [d] + [e, f, g];
    assert [e, f, g] == [e] + [f, g];
    assert [f, g] == [f] + [g];
    JoinCons(a, [b, c, d, e, f, g], n);
    JoinCons(b, [c, d, e, f, g], n);
    JoinCons(c, [d, e, f, g], n);
    JoinCons(d, [e, f, g], n);
    JoinCons(e, [f, g], n);
    JoinCons(f, [g], n);
  }

  /** Every appended piece but the last is its statement followed by a line break. */
  lemma Appended(db: string, user: string, password: string)
    ensures var st := Statements(db, user, password);
      GetCommand(db, user, password)
        == "" + (st[0] + "\n") + (st[1] + "\n") + (st[2] + "\n") + (st[3] + "\n") + (st[4] + "\n") + (st[5] + "\n") + st[6]
  {
  }

  /** The script is the seven statements joined by line breaks: a break between two, none at the end. */
  lemma ScriptIsJoinedStatements(db: string, user: string, password: string)
    ensures GetCommand(db, user, password) == Join(Statements(db, user, password), "\n")
  {
    var st := Statements(db, user, password);
    Appended(db, user, password);
    Regroup(st[0], st[1], st[2], st[3], st[4], st[5], st[6], "\n");
    JoinSeven(st[0], st[1], st[2], st[3], st[4], st[5], st[6], "\n");
    assert st == [st[0], st[1], st[2], st[3], st[4], st[5], st[6]];
  }

  predicate NoBreaks(lines: seq<string>) {
    forall k :: 0 <= k < |lines| ==> '\n' !in lines[k]
  }

  lemma NoBreakIn(a: string, b: string, c: string)
    requires '\n' !in a && '\n' !in b && '\n' !in c
    ensures '\n' !in a + b + c
  {
  }

  lemma NoBreaksSeven(s0: string, s1: string, s2: string, s3: string, s4: string, s5: string, s6: string)
    requires '\n' !in s0 && '\n' !in s1 && '\n' !in s2 && '\n' !in s3 && '\n' !in s4 && '\n' !in s5 && '\n' !in s6
    ensures NoBreaks([s0, s1, s2, s3, s4, s5, s6])
  {
  }

  // One lemma per statement: each literal is checked for line breaks on its own.
  lemma NoBreak0(db: string)
    requires '\n' !in db
    ensures '\n' !in "CREATE DATABASE " + db + ";"
  {
    NoBreakIn("CREATE DATABASE ", db, ";");
  }

  lemma NoBreak1(user: string, password: string)
    requires '\n' !in user && '\n' !in password
    ensures '\n' !in "CREATE USER " + user + " WITH PASSWORD '" + password + "';"
  {
    NoBreakIn("CREATE USER ", user, " WITH PASSWORD '");
    NoBreakIn("CREATE USER " + user + " WITH PASSWORD '", password, "';");
  }

  lemma NoBreak2(user: string)
    requires '\n' !in user
    ensures '\n' !in "ALTER ROLE " + user + " SET client_encoding TO 'utf8';"
  {
    NoBreakIn("ALTER ROLE ", user, " SET client_encoding TO 'utf8';");
  }

  /** The isolation literal, cut into three short pieces so that each is checked on its own. */
  lemma IsolationPieces()
    ensures " SET default_transaction_isolation TO 'read committed';"
         == " SET default_trans" + "action_isolation" + " TO 'read committed';"
  {
  }

  lemma IsolationPiecesSingleLine()
    ensures '\n' !in " SET default_trans" && '\n' !in "action_isolation"
  {
  }

  lemma NoBreak3(user: string)
    requires '\n' !in user
    ensures '\n' !in "ALTER ROLE " + user + " SET default_transaction_isolation TO 'read committed';"
  {
    IsolationPieces();
    IsolationPiecesSingleLine();
    assert '\n' !in " TO 'read committed';";
    NoBreakIn(" SET default_trans", "action_isolation", " TO 'read committed';");
    NoBreakIn("ALTER ROLE ", user, " SET default_transaction_isolation TO 'read committed';");
  }

  lemma NoBreak4(user: string)
    requires '\n' !in user
    ensures '\n' !in "ALTER ROLE " + user + " SET timezone TO 'Asia/Kolkata';"
  {
    NoBreakIn("ALTER ROLE ", user, " SET timezone TO 'Asia/Kolkata';");
  }

  lemma NoBreak5(db: string, user: string)
    requires '\n' !in db && '\n' !in user
    ensures '\n' !in "GRANT ALL PRIVILEGES ON DATABASE " + db + " TO " + user + ";"
  {
    NoBreakIn("GRANT ALL PRIVILEGES ON DATABASE ", db, " TO ");
    NoBreakIn("GRANT ALL PRIVILEGES ON DATABASE " + db + " TO ", user, ";");
  }

  lemma NoBreak6(user: string)
    requires '\n' !in user
    ensures '\n' !in "ALTER ROLE " + user + " SUPERUSER;"
  {
    NoBreakIn("ALTER ROLE ", user, " SUPERUSER;");
  }

  /** No statement breaks a line when the inputs do not. */
  lemma StatementsSingleLine(db: string, user: string, password: string)
    requires SingleLine(db, user, password)
    ensures NoBreaks(Statements(db, user, password))
  {
    NoBreak0(db);
    NoBreak1(user, password);
    NoBreak2(user);
    NoBreak3(user);
    NoBreak4(user);
    NoBreak5(db, user);
    NoBreak6(user);
    NoBreaksSeven(
      "CREATE DATABASE " + db + ";",
      "CREATE USER " + user + " WITH PASSWORD '" + password + "';",
      "ALTER ROLE " + user + " SET client_encoding TO 'utf8';",
      "ALTER ROLE " + user + " SET default_transaction_isolation TO 'read committed';",
      "ALTER ROLE " + user + " SET timezone TO 'Asia/Kolkata';",
      "GRANT ALL PRIVILEGES ON DATABASE " + db + " TO " + user + ";",
      "ALTER ROLE " + user + " SUPERUSER;");
  }

  /** Every statement ends in `;`. */
  lemma StatementsTerminated(db: string, user: string, password: string)
    ensures forall k :: 0 <= k < |Statements(db, user, password)| ==>
      var line := Statements(db, user, password)[k]; |line| > 0 && line[|line| - 1] == ';'
  {
  }

  /**
   * Split into lines, the script is exactly the seven statements, in order: no trailing newline,
   * every line ending in `;`, and each input standing verbatim where the template puts it (the
   * password between single quotes, unescaped).
   */
  lemma ScriptLines(db: string, user: string, password: string)
    requires SingleLine(db, user, password)
    ensures Split(GetCommand(db, user, password), '\n') == Statements(db, user, password)
  {
    ScriptIsJoinedStatements(db, user, password);
    StatementsSingleLine(db, user, password);
    SplitLines(GetCommand(db, user, password), Statements(db, user, password));
  }

  lemma SplitLines(script: string, st: seq<string>)
    requires |st| > 0 && NoBreaks(st) && script == Join(st, "\n")
    ensures Split(script, '\n') == st
  {
    SplitJoin(st, '\n');
  }

  /** The text strictly between `pre` and `post`, when `s` starts with `pre` and ends with `post`. */
  function Between(s: string, pre: string, post: string): (r: Option<string>)
    ensures r.Some? ==> s == pre + r.value + post
  {
    if |pre| + |post| <= |s| && pre <= s && IsSuffix(post, s) then
      var inner := s[|pre|..|s| - |post|];
      assert s == s[..|pre|] + inner + s[|s| - |post|..];
      Some(inner)
    else None
  }

  /** Reads the database name, user and password back out of a script. */
  function ParseCommand(script: string): (r: Option<(string, string, string)>)
    ensures r.Some? ==> GetCommand(r.value.0, r.value.1, r.value.2) == script
  {
    var lines := Split(script, '\n');
    if |lines| != 7 then None
    else
      var db := Between(lines[0], "CREATE DATABASE ", ";");
      var user := Between(lines[6], "ALTER ROLE ", " SUPERUSER;");
      if db.None? || user.None? then None
      else
        var password := Between(lines[1], "CREATE USER " + user.value + " WITH PASSWORD '", "';");
        if password.None? || GetCommand(db.value, user.value, password.value) != script then None
        else Some((db.value, user.value, password.value))
  }

  /** Each input can be read back from the script: no two single-line inputs give the same script. */
  lemma {:induction false} ParseGetCommand(db: string, user: string, password: string)
    requires SingleLine(db, user, password)
    ensures ParseCommand(GetCommand(db, user, password)) == Some((db, user, password))
  {
    var script := GetCommand(db, user, password);
    var st := Statements(db, user, password);
    ScriptLines(db, user, password);
    ReadBack(db, user, password);
    ParseSteps(script, st, db, user, password);
  }

  /** The database name, user and password stand between the fixed parts of their statements. */
  lemma ReadBack(db: string, user: string, password: string)
    ensures var st := Statements(db, user, password);
      && Between(st[0], "CREATE DATABASE ", ";") == Some(db)
      && Between(st[6], "ALTER ROLE ", " SUPERUSER;") == Some(user)
      && Between(st[1], "CREATE USER " + user + " WITH PASSWORD '", "';") == Some(password)
  {
    BetweenOf("CREATE DATABASE ", db, ";");
    BetweenOf("ALTER ROLE ", user, " SUPERUSER;");
    BetweenOf("CREATE USER " + user + " WITH PASSWORD '", password, "';");
  }

  /** `ParseCommand` accepts a script whose lines give back the inputs that rebuild it. */
  lemma ParseSteps(script: string, lines: seq<string>, db: string, user: string, password: string)
    requires lines == Split(script, '\n') && |lines| == 7
    requires Between(lines[0], "CREATE DATABASE ", ";") == Some(db)
    requires Between(lines[6], "ALTER ROLE ", " SUPERUSER;") == Some(user)
    requires Between(lines[1], "CREATE USER " + user + " WITH PASSWORD '", "';") == Some(password)
    requires GetCommand(db, user, password) == script
    ensures ParseCommand(script) == Some((db, user, password))
  {
  }

  /** `Between` takes apart what concatenation puts together. */
  lemma BetweenOf(pre: string, mid: string, post: string)
    ensures Between(pre + mid + post, pre, post) == Some(mid)
  {
    var s := pre + mid + post;
    assert s[..|pre|] == pre;
    assert s[|s| - |post|..] == post;
    assert s[|pre|..|s| - |post|] == mid;
  }
}

/**
 * custom_auth/management/commands/get_db_command.py: the same command, duplicated line for line
 * in a second app.
 */
module CustomAuthGetDbCommand {
  import opened Strings
  import CommonGetDbCommand

  /** `get_command(db, user, password)` of the custom_auth app. */
  function GetCommand(db: string, user: string, password: string): string
  {
    var line := "";
    var line := line + ("CREATE DATABASE " + db + ";\n");
    var line := line + ("CREATE USER " + user + " WITH PASSWORD '" + password + "';\n");
    var line := line + ("ALTER ROLE " + user + " SET client_encoding TO 'utf8';\n");
    var line := line + ("ALTER ROLE " + user + " SET default_transaction_isolation TO 'read committed';\n");
    var line := line + ("ALTER ROLE " + user + " SET timezone TO 'Asia/Kolkata';\n");
    var line := line + ("GRANT ALL PRIVILEGES ON DATABASE " + db + " TO " + user + ";\n");
    var line := line + ("ALTER ROLE " + user + " SUPERUSER;");
    line
  }

  /** The two copies agree on every input. */
  lemma SameAsCommon(db: string, user: string, password: string)
    ensures GetCommand(db, user, password) == CommonGetDbCommand.GetCommand(db, user, password)
  {
  }

  /** The seven statements of the script, one per line, each ending in `;`. */
  lemma ScriptLines(db: string, user: string, password: string)
    requires CommonGetDbCommand.SingleLine(db, user, password)
    ensures Split(GetCommand(db, user, password), '\n') == CommonGetDbCommand.Statements(db, user, password)
  {
    SameAsCommon(db, user, password);
    CommonGetDbCommand.ScriptLines(db, user, password);
  }
}
