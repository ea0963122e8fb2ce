/** The ODBC connection strings of code/sqlite.cpp and code/mysql.cpp
    (built into a string and handed to the driver), and of sql/sqlite.cpp,
    sql/mysql.cpp and sql/firebird.cpp (written to a stream behind an
    `ostream::sentry`). Each is a list of `key=value` fields, each followed
    by a semicolon; values are inserted as they are, with no escaping. */
module ConnectionStrings {

  import opened Units
  import opened Text

  /** The fields, each terminated by ';'. The literal pieces the source
      inserts ("Driver={SQLite ODBC Driver};" then "Database=" ...) are
      exactly these fields and terminators, in order. */
  function Terminated(fields: seq<string>): (r: string)
    ensures |fields| >= 1 ==> |r| >= 1 && r[|r| - 1] == ';'
    decreases |fields|
  {
    if fields == [] then [] else fields[0] + ([';'] + Terminated(fields[1..]))
  }

  lemma {:induction false} TerminatedSnoc(fields: seq<string>, last: string)
    ensures Terminated(fields + [last]) == Terminated(fields) + last + ";"
    decreases |fields|
  {
    if fields == [] {
      assert Terminated([last]) == last + ([';'] + Terminated([]));
    } else {
      var head, tail := fields[0], fields[1..];
      assert (fields + [last])[1..] == tail + [last];
      TerminatedSnoc(tail, last);
      calc {
        Terminated(fields + [last]);
        head + ([';'] + Terminated(tail + [last]));
        head + ([';'] + (Terminated(tail) + last + ";"));
        (head + ([';'] + Terminated(tail))) + last + ";";
      }
    }
  }

  /** A reader that cuts the text at every ';' gets the fields back, with
      the empty remainder after the last terminator, as long as no value
      contains a ';'. */
  lemma {:induction false} SplitTerminated(fields: seq<string>)
    requires forall i :: 0 <= i < |fields| ==> ';' !in fields[i]
    ensures Split(Terminated(fields), ';') == fields + [[]]
    decreases |fields|
  {
    if fields != [] {
      var head, tail := fields[0], fields[1..];
      assert forall i :: 0 <= i < |tail| ==> ';' !in tail[i] by {
        forall i | 0 <= i < |tail| ensures ';' !in tail[i] {
          assert tail[i] == fields[i + 1];
        }
      }
      calc {
        Split(Terminated(fields), ';');
        { assert Terminated(fields) == head + ([';'] + Terminated(tail)); }
        Split(head + ([';'] + Terminated(tail)), ';');
        { SplitJoin(head, ';', Terminated(tail)); }
        [head] + Split(Terminated(tail), ';');
        { SplitTerminated(tail); }
        [head] + (tail + [[]]);
        { assert fields == [head] + tail; Associative([head], tail, [[]]); }
        fields + [[]];
      }
    }
  }

  // ---------------------------------------------------------------------
  // SQLite
  // ---------------------------------------------------------------------

  function SqliteFields(database: string): seq<string> {
    ["Driver={SQLite ODBC Driver}", "Database=" + database]
  }

  /** code/sqlite.cpp: `format(database)`. */
  function SqliteFormat(database: string): (r: string)
    ensures |r| == 38 + |database|
    ensures r[..37] == "Driver={SQLite ODBC Driver};Database=" && r[37..|r| - 1] == database && r[|r| - 1] == ';'
  {
    SqliteText(database);
    Terminated(SqliteFields(database))
  }

  lemma SqliteText(database: string)
    ensures Terminated(SqliteFields(database)) == "Driver={SQLite ODBC Driver};Database=" + database + ";"
  {
    assert Terminated(["Database=" + database]) == "Database=" + database + ";" by {
      TerminatedSnoc([], "Database=" + database);
    }
  }

  /** The database is recovered from the text, so different databases give
      different connection strings. */
  lemma SqliteInjective(a: string, b: string)
    ensures SqliteFormat(a) == SqliteFormat(b) <==> a == b
  {
    if SqliteFormat(a) == SqliteFormat(b) {
      assert a == SqliteFormat(a)[37..|SqliteFormat(a)| - 1];
    }
  }

  // ---------------------------------------------------------------------
  // MySQL
  // ---------------------------------------------------------------------

  function MysqlFields(database: string, user: string, password: string): seq<string> {
    ["Driver={MySQL ODBC 5.1 Driver}", "Server=localhost", "Database=" + database,
     "User=" + user, "Password=" + password, "Option=3"]
  }

  /** code/mysql.cpp: `format(database, username, password)`. The six keys
      come in order, each value between its key and a ';'. */
  function MysqlFormat(database: string, user: string, password: string): (r: string)
    ensures r == "Driver={MySQL ODBC 5.1 Driver}" + ";" + "Server=localhost" + ";"
            + "Database=" + database + ";" + "User=" + user + ";"
            + "Password=" + password + ";" + "Option=3" + ";"
    ensures |r| >= 9 && r[|r| - 9..] == "Option=3;"
    ensures ';' !in database + user + password ==>
      Split(r, ';') == MysqlFields(database, user, password) + [[]]
  {
    var r := Terminated(MysqlFields(database, user, password));
    MysqlText(database, user, password);
    MysqlTail(database, user, password);
    MysqlSplit(database, user, password);
    r
  }

  /** The text itself, for every input: the keys in order, each value
      inserted as it is, each field followed by ';'. */
  lemma MysqlText(database: string, user: string, password: string)
    ensures Terminated(MysqlFields(database, user, password))
         == "Driver={MySQL ODBC 5.1 Driver}" + ";" + "Server=localhost" + ";"
            + "Database=" + database + ";" + "User=" + user + ";"
            + "Password=" + password + ";" + "Option=3" + ";"
  {
    KeyedFields("Driver={MySQL ODBC 5.1 Driver}", "Server=localhost", "Database=", database,
      "User=", user, "Password=", password, "Option=3");
  }

  lemma MysqlTail(database: string, user: string, password: string)
    ensures var r := Terminated(MysqlFields(database, user, password));
      |r| >= 9 && r[|r| - 9..] == "Option=3;"
  {
    var f := MysqlFields(database, user, password);
    assert f == f[..5] + ["Option=3"];
    TerminatedSnoc(f[..5], "Option=3");
    var r := Terminated(f);
    assert r == Terminated(f[..5]) + "Option=3" + ";";
  }

  lemma MysqlSplit(database: string, user: string, password: string)
    ensures ';' !in database + user + password ==>
      Split(Terminated(MysqlFields(database, user, password)), ';') == MysqlFields(database, user, password) + [[]]
  {
    if ';' in database + user + password {
      return;
    }
    var f := MysqlFields(database, user, password);
    assert forall c :: c in database ==> c in database + user + password;
    assert forall c :: c in user ==> c in database + user + password;
    assert forall c :: c in password ==> c in database + user + password;
    MysqlKeysClean();
    forall i | 0 <= i < |f| ensures ';' !in f[i] {
      if i == 0 { assert f[i] == "Driver={MySQL ODBC 5.1 Driver}"; }
      else if i == 1 { assert f[i] == "Server=localhost"; }
      else if i == 2 { assert f[i] == "Database=" + database; }
      else if i == 3 { assert f[i] == "User=" + user; }
      else if i == 4 { assert f[i] == "Password=" + password; }
      else { assert f[i] == "Option=3"; }
    }
    SplitTerminated(f);
  }

  lemma MysqlKeysClean()
    ensures ';' !in "Driver={MySQL ODBC 5.1 Driver}" && ';' !in "Server=localhost" && ';' !in "Option=3"
    ensures ';' !in "Database=" && ';' !in "User=" && ';' !in "Password="
  {
  }

  /** Values go in verbatim: a ';' inside the database name produces the
      same text as a different database and user. */
  lemma MysqlNotEscaped()
    ensures MysqlFormat("a;User=b", "c", "p") == MysqlFormat("a", "b;User=c", "p")
  {
    assert "a;User=b" == "a" + ";User=" + "b";
    assert "b;User=c" == "b" + ";User=" + "c";
    MysqlShiftsUser("a", "b", "c", "p");
  }

  /** For every database `a` and users `b`, `c`: the database `a;User=b`
      with user `c` formats like the database `a` with user `b;User=c`. */
  lemma MysqlShiftsUser(a: string, b: string, c: string, password: string)
    ensures MysqlFormat(a + ";User=" + b, c, password) == MysqlFormat(a, b + ";User=" + c, password)
  {
    var f1, f2 := MysqlFields(a + ";User=" + b, c, password), MysqlFields(a, b + ";User=" + c, password);
    assert f1 == f1[..2] + [f1[2], f1[3]] + f1[4..];
    assert f2 == f2[..2] + [f2[2], f2[3]] + f2[4..];
    TerminatedPair(f1[..2], f1[2], f1[3], f1[4..]);
    TerminatedPair(f2[..2], f2[2], f2[3], f2[4..]);
    SameMiddle(a, b, c);
    assert f1[..2] == f2[..2] && f1[4..] == f2[4..];
  }

  lemma SameMiddle(a: string, b: string, c: string)
    ensures ("Database=" + (a + ";User=" + b)) + ";" + ("User=" + c) + ";"
         == ("Database=" + a) + ";" + ("User=" + (b + ";User=" + c)) + ";"
  {
    assert ";User=" == ";" + "User=";
  }

  lemma TerminatedPair(a: seq<string>, x: string, y: string, b: seq<string>)
    ensures Terminated(a + [x, y] + b) == Terminated(a) + (x + ";" + y + ";") + Terminated(b)
  {
    TerminatedConcat(a + [x, y], b);
    TerminatedConcat(a, [x, y]);
    TerminatedTwo(x, y);
  }

  lemma TerminatedTwo(x: string, y: string)
    ensures Terminated([x, y]) == x + ";" + y + ";"
  {
    assert [x, y][1..] == [y];
    assert Terminated([y]) == y + ";" by {
      assert Terminated([y]) == y + ([';'] + Terminated([]));
    }
    assert Terminated([x, y]) == x + ([';'] + (y + ";"));
  }

  /** Two literal fields, three `key=value` fields and a closing literal
      field, each followed by ';'. */
  lemma KeyedFields(a: string, b: string, k1: string, v1: string, k2: string, v2: string,
                    k3: string, v3: string, z: string)
    ensures Terminated([a, b, k1 + v1, k2 + v2, k3 + v3, z])
         == a + ";" + b + ";" + k1 + v1 + ";" + k2 + v2 + ";" + k3 + v3 + ";" + z + ";"
  {
    var f2 := [a, b];
    TerminatedTwo(a, b);
    var f3 := f2 + [k1 + v1];
    SnocKeyed(f2, a + ";" + b + ";", k1, v1);
    var f4 := f3 + [k2 + v2];
    SnocKeyed(f3, a + ";" + b + ";" + k1 + v1 + ";", k2, v2);
    var f5 := f4 + [k3 + v3];
    SnocKeyed(f4, a + ";" + b + ";" + k1 + v1 + ";" + k2 + v2 + ";", k3, v3);
    TerminatedSnoc(f5, z);
    assert f5 + [z] == [a, b, k1 + v1, k2 + v2, k3 + v3, z];
  }

  /** A literal field, three `key=value` fields and a closing literal
      field, each followed by ';'. */
  lemma KeyedFieldsAfter(a: string, k1: string, v1: string, k2: string, v2: string,
                         k3: string, v3: string, z: string)
    ensures Terminated([a, k1 + v1, k2 + v2, k3 + v3, z])
         == a + ";" + k1 + v1 + ";" + k2 + v2 + ";" + k3 + v3 + ";" + z + ";"
  {
    var f1 := [a];
    TerminatedSnoc([], a);
    assert [] + [a] == f1;
    var f2 := f1 + [k1 + v1];
    SnocKeyed(f1, a + ";", k1, v1);
    var f3 := f2 + [k2 + v2];
    SnocKeyed(f2, a + ";" + k1 + v1 + ";", k2, v2);
    var f4 := f3 + [k3 + v3];
    SnocKeyed(f3, a + ";" + k1 + v1 + ";" + k2 + v2 + ";", k3, v3);
    TerminatedSnoc(f4, z);
    assert f4 + [z] == [a, k1 + v1, k2 + v2, k3 + v3, z];
  }

  /** One more `key=value` field after what is already terminated. */
  lemma SnocKeyed(fields: seq<string>, t: string, k: string, v: string)
    requires Terminated(fields) == t
    ensures Terminated(fields + [k + v]) == t + k + v + ";"
  {
    TerminatedSnoc(fields, k + v);
    Associative(t, k, v);
  }

  lemma {:induction false} TerminatedConcat(a: seq<string>, b: seq<string>)
    ensures Terminated(a + b) == Terminated(a) + Terminated(b)
    decreases |a|
  {
    if a != [] {
      assert (a + b)[0] == a[0] && (a + b)[1..] == a[1..] + b;
      TerminatedConcat(a[1..], b);
    } else {
      assert a + b == b;
    }
  }

  // ---------------------------------------------------------------------
  // The stream-writing generation
  // ---------------------------------------------------------------------

  /** An output stream: what it holds so far, and whether its sentry
      succeeds (the stream is good). */
  datatype Stream = Stream(text: string, good: bool)

  /** What every `put` does with its text: nothing unless the sentry is
      ok, otherwise the text is appended. */
  function Write(out: Stream, text: string): (r: Stream)
    ensures !out.good ==> r == out
    ensures out.good ==> r.good && |r.text| == |out.text| + |text| && r.text[..|out.text|] == out.text && r.text[|out.text|..] == text
  {
    if out.good then out.(text := out.text + text) else out
  }

  /** sql/sqlite.cpp: `ConnectionString::put`, the same text as the newer
      generation's `format`. */
  function SqlitePut(out: Stream, database: string): (r: Stream)
    ensures !out.good ==> r == out
    ensures out.good ==> r.text == out.text + SqliteFormat(database)
  {
    Write(out, Terminated(SqliteFields(database)))
  }

  /** sql/mysql.cpp: `LocalConnectionString::put`, the same text as
      code/mysql.cpp's `format`. */
  function MysqlPut(out: Stream, database: string, user: string, password: string): (r: Stream)
    ensures !out.good ==> r == out
    ensures out.good ==> r.text == out.text + MysqlFormat(database, user, password)
  {
    Write(out, Terminated(MysqlFields(database, user, password)))
  }

  /** The driver name of sql/firebird.cpp:17, written as two literals so
      that each is short enough to inspect unit by unit. */
  const FirebirdDriver: string := "DRIVER={Firebird/Interbase(r) " + "Driver (*.fdb)}"

  function FirebirdFields(database: string, user: string, password: string): seq<string> {
    [FirebirdDriver, "DATABASE=" + database,
     "USER=" + user, "PASSWORD=" + password, "CHARSET=WIN1250"]
  }

  lemma FirebirdSplit(database: string, user: string, password: string)
    ensures ';' !in database + user + password ==>
      Split(Terminated(FirebirdFields(database, user, password)), ';') == FirebirdFields(database, user, password) + [[]]
  {
    if ';' in database + user + password {
      return;
    }
    var f := FirebirdFields(database, user, password);
    assert forall c :: c in database ==> c in database + user + password;
    assert forall c :: c in user ==> c in database + user + password;
    assert forall c :: c in password ==> c in database + user + password;
    FirebirdKeysClean();
    forall i | 0 <= i < |f| ensures ';' !in f[i] {
      if i == 0 { assert f[i] == FirebirdDriver; }
      else if i == 1 { assert f[i] == "DATABASE=" + database; }
      else if i == 2 { assert f[i] == "USER=" + user; }
      else if i == 3 { assert f[i] == "PASSWORD=" + password; }
      else { assert f[i] == "CHARSET=WIN1250"; }
    }
    SplitTerminated(f);
  }

  /** The text itself, for every input: the keys in order, each value
      inserted as it is, each field followed by ';'. */
  lemma FirebirdText(database: string, user: string, password: string)
    ensures Terminated(FirebirdFields(database, user, password))
         == FirebirdDriver + ";" + "DATABASE=" + database + ";" + "USER=" + user + ";"
            + "PASSWORD=" + password + ";" + "CHARSET=WIN1250" + ";"
  {
    KeyedFieldsAfter(FirebirdDriver, "DATABASE=", database, "USER=", user,
      "PASSWORD=", password, "CHARSET=WIN1250");
  }

  lemma FirebirdKeysClean()
    ensures ';' !in FirebirdDriver && ';' !in "CHARSET=WIN1250"
    ensures ';' !in "DATABASE=" && ';' !in "USER=" && ';' !in "PASSWORD="
  {
  }

  /** `firebird::ConnectionString`: three fields with accessors. */
  class FirebirdConnectionString {

    var database: string
    var user: string
    var password: string

    constructor (database: string, user: string, password: string)
      ensures this.database == database && this.user == user && this.password == password
    {
      this.database, this.user, this.password := database, user, password;
    }

    method SetDatabase(value: string)
      modifies this
      ensures database == value && user == old(user) && password == old(password)
    {
      database := value;
    }

    method SetUser(value: string)
      modifies this
      ensures user == value && database == old(database) && password == old(password)
    {
      user := value;
    }

    method SetPassword(value: string)
      modifies this
      ensures password == value && database == old(database) && user == old(user)
    {
      password := value;
    }

    /** sql/firebird.cpp: `put`. When the sentry is ok the five fields go
        out in order, each value as it is, and, for values without ';',
        read back unchanged. */
    function Put(out: Stream): (r: Stream)
      reads this
      ensures !out.good ==> r == out
      ensures out.good ==>
        r.text == out.text + (FirebirdDriver + ";" + "DATABASE=" + database + ";"
                              + "USER=" + user + ";" + "PASSWORD=" + password + ";" + "CHARSET=WIN1250" + ";")
      ensures out.good ==> |r.text| >= |out.text| && r.text[..|out.text|] == out.text
      ensures out.good && |r.text| >= |out.text| && ';' !in database + user + password ==>
        Split(r.text[|out.text|..], ';') == FirebirdFields(database, user, password) + [[]]
    {
      FirebirdSplit(database, user, password);
      FirebirdText(database, user, password);
      Write(out, Terminated(FirebirdFields(database, user, password)))
    }
  }

  /** The newer generation's `Driver`, reduced to the connection string
      its constructor receives; connecting is the driver's business. */
  class Driver {

    const connectionString: string

    /** `sqlite::Connection(environment, database)`. */
    constructor Sqlite(database: string)
      ensures connectionString == SqliteFormat(database)
    {
      connectionString := SqliteFormat(database);
    }

    /** `mysql::Connection(environment, database, username, password)`. */
    constructor Mysql(database: string, user: string, password: string)
      ensures connectionString == MysqlFormat(database, user, password)
    {
      connectionString := MysqlFormat(database, user, password);
    }
  }
}
