/**
 * The decision logic of `CheckMySQL#run` (bin/check-mysql-query.rb): choose
 * the credentials, run the query, pick the checked value, and classify it
 * against the critical and warning threshold expressions.
 *
 * Everything `run` calls but does not define (IniFile.load, the database
 * driver, the Dentaku calculator, String#to_f) is a field of `Collaborators`
 * and is otherwise left abstract.
 */
module CheckMysqlQuery {
  import opened Wrappers
  import opened RubyValues

  /** The options `run` reads, after command-line parsing. */
  datatype Config = Config(
    user: Option<string>,
    password: Option<string>,
    ini: Option<string>,
    hostname: string,
    database: string,
    port: string,
    socket: Option<string>,
    query: string,
    checkTuples: bool,
    warning: Option<string>,
    critical: Option<string>)

  /** An ini file as sections of key/value pairs. */
  type IniDoc = map<string, map<string, string>>

  /** What `IniFile.load(path)` gives: a document, nil when the path is not a file, or a parse error it raises. */
  datatype IniLoad = Loaded(doc: IniDoc) | NotAFile | Unparsable(message: string)

  /** What a connection attempt plus `con.exec(query)` gives: a driver error, or the result rows. */
  datatype QueryOutcome = DbError(message: string) | Rows(rows: seq<seq<Field>>)

  /** The arguments of `Mysql.real_connect`. */
  datatype ConnParams = ConnParams(
    host: string,
    user: Option<string>,
    password: Option<string>,
    database: string,
    port: int,
    socket: Option<string>)

  datatype Credentials = Credentials(user: Option<string>, password: Option<string>)

  /** The external code `run` calls. */
  datatype Collaborators = Collaborators(
    loadIni: string -> IniLoad,
    execute: (ConnParams, string) -> QueryOutcome,
    evaluate: (string, real) -> RubyObject,
    toF: string -> real)

  /** An exception that escapes `run` instead of a status being reported. */
  datatype Exception =
    | NoMethodError(methodName: string)   // a method called on nil
    | IniFileError(message: string)

  /** The monitoring statuses; each call to one of them ends the process. */
  datatype Status = Ok(message: string) | Warning(message: string) | Critical(message: string) | Unknown(message: string)

  /** How one run of the check ends: it exits with exactly one status, or an exception escapes. */
  datatype Outcome = Exits(status: Status) | Raises(exception: Exception)

  /** The exit code the monitoring framework gives each status. */
  function ExitCode(s: Status): (code: nat)
    ensures code <= 3
  {
    match s
    case Ok(_) => 0
    case Warning(_) => 1
    case Critical(_) => 2
    case Unknown(_) => 3
  }

  // ---------------------------------------------------------------------------
  // Credentials

  /** `ini[section][key]`: nil when the section or the key is missing. */
  function IniLookup(doc: IniDoc, section: string, key: string): (v: Option<string>)
    ensures v.Some? <==> section in doc && key in doc[section]
    ensures v.Some? ==> v.value == doc[section][key]
  {
    if section in doc && key in doc[section] then Some(doc[section][key]) else None
  }

  /** The user and password `run` connects with. */
  function ResolveCredentials(cfg: Config, loadIni: string -> IniLoad): (r: Result<Credentials, Exception>)
    ensures cfg.ini.None? ==> r == Success(Credentials(cfg.user, cfg.password))
    ensures cfg.ini.Some? ==>
      match loadIni(cfg.ini.value)
      case Loaded(doc) =>
        r == Success(Credentials(IniLookup(doc, "client", "user"), IniLookup(doc, "client", "password")))
      case NotAFile => r == Failure(NoMethodError("[]"))
      case Unparsable(m) => r == Failure(IniFileError(m))
  {
    if cfg.ini.Some? then
      match loadIni(cfg.ini.value)
      case Loaded(doc) => Success(Credentials(IniLookup(doc, "client", "user"), IniLookup(doc, "client", "password")))
      case NotAFile => Failure(NoMethodError("[]"))
      case Unparsable(m) => Failure(IniFileError(m))
    else
      Success(Credentials(cfg.user, cfg.password))
  }

  /** With an ini path set, the explicit user and password flags play no part. */
  lemma IniIgnoresExplicitFlags(cfg: Config, user: Option<string>, password: Option<string>, loadIni: string -> IniLoad)
    requires cfg.ini.Some?
    ensures ResolveCredentials(cfg.(user := user, password := password), loadIni) == ResolveCredentials(cfg, loadIni)
  {
  }

  /** Without an ini path, the flags are passed through unchanged and no file is read. */
  lemma FlagsPassThrough(cfg: Config, loadIni1: string -> IniLoad, loadIni2: string -> IniLoad)
    requires cfg.ini.None?
    ensures ResolveCredentials(cfg, loadIni1) == ResolveCredentials(cfg, loadIni2) == Success(Credentials(cfg.user, cfg.password))
  {
  }

  // ---------------------------------------------------------------------------
  // Connecting and querying

  function ConnectionParams(cfg: Config, creds: Credentials): (p: ConnParams)
    ensures p.user == creds.user && p.password == creds.password
    ensures p.host == cfg.hostname && p.database == cfg.database && p.socket == cfg.socket
    ensures p.port == ToI(cfg.port)
  {
    ConnParams(cfg.hostname, creds.user, creds.password, cfg.database, ToI(cfg.port), cfg.socket)
  }

  /** A port option holding a decimal number reaches the driver as that number. */
  lemma DecimalPortReachesDriver(cfg: Config, creds: Credentials, n: nat)
    requires cfg.port == Decimal(n)
    ensures ConnectionParams(cfg, creds).port == n
  {
    assert Decimal(n) + "" == Decimal(n);
    ToIDecimal(n, "");
  }

  /** Resolve the credentials, connect and run the query once. */
  function Query(cfg: Config, env: Collaborators): (r: Result<QueryOutcome, Exception>)
    ensures r.Failure? <==> ResolveCredentials(cfg, env.loadIni).Failure?
    ensures r.Failure? ==> r.error == ResolveCredentials(cfg, env.loadIni).error
    ensures r.Success? ==>
      r.value == env.execute(ConnectionParams(cfg, ResolveCredentials(cfg, env.loadIni).value), cfg.query)
  {
    match ResolveCredentials(cfg, env.loadIni)
    case Failure(e) => Failure(e)
    case Success(creds) => Success(env.execute(ConnectionParams(cfg, creds), cfg.query))
  }

  const QueryErrorPrefix := "Unable to query. Database: "

  /**
   * The UNKNOWN message as line 125 writes it: `#{:database}` and `#{:query}`
   * interpolate the symbols themselves, so the message names neither the
   * configured database nor the query.
   */
  function UnknownMessageAsWritten(cfg: Config, error: string): (m: string)
    ensures m == QueryErrorPrefix + "database Query: query, Error:" + error
  {
    QueryErrorPrefix + "database" + " Query: " + "query" + ", Error:" + error
  }

  /** The UNKNOWN message with the configured database and query, as evidently intended. */
  function UnknownMessage(cfg: Config, error: string): (m: string)
    ensures |m| >= |QueryErrorPrefix| + |cfg.database| + |error|
    ensures m[..|QueryErrorPrefix|] == QueryErrorPrefix
    ensures m[|QueryErrorPrefix|..|QueryErrorPrefix| + |cfg.database|] == cfg.database
    ensures m[|m| - |error|..] == error
  {
    QueryErrorPrefix + cfg.database + " Query: " + cfg.query + ", Error:" + error
  }

  /** For one query, the corrected message tells the configured databases apart. */
  lemma UnknownMessageNamesDatabase(cfg1: Config, cfg2: Config, error: string)
    requires cfg1.query == cfg2.query && cfg1.database != cfg2.database
    ensures UnknownMessage(cfg1, error) != UnknownMessage(cfg2, error)
  {
    var m1, m2 := UnknownMessage(cfg1, error), UnknownMessage(cfg2, error);
    if |cfg1.database| == |cfg2.database| {
      assert m1[|QueryErrorPrefix|..|QueryErrorPrefix| + |cfg1.database|] == cfg1.database;
      assert m2[|QueryErrorPrefix|..|QueryErrorPrefix| + |cfg2.database|] == cfg2.database;
    } else {
      assert |m1| - |cfg1.database| == |m2| - |cfg2.database|;
    }
  }

  /** The message as written is the same whatever database is configured: two databases it cannot tell apart. */
  lemma AsWrittenMessageOmitsDatabase(cfg1: Config, cfg2: Config, error: string)
    requires cfg1.query == cfg2.query && cfg1.database != cfg2.database
    ensures UnknownMessageAsWritten(cfg1, error) == UnknownMessageAsWritten(cfg2, error)
    ensures UnknownMessage(cfg1, error) != UnknownMessage(cfg2, error)
  {
    UnknownMessageNamesDatabase(cfg1, cfg2, error);
  }

  // ---------------------------------------------------------------------------
  // The checked value

  /** `values.first` of a row: nil for a row without fields. */
  function FirstField(row: seq<Field>): (f: Field)
    ensures |row| > 0 ==> f == row[0]
    ensures |row| == 0 ==> f.None?
  {
    if |row| == 0 then None else row[0]
  }

  /**
   * The value the thresholds are checked against: the row count in tuples
   * mode, otherwise the first field of the first row coerced by `to_f`.
   * With no rows, `res.first` is nil and calling `values` on it raises.
   */
  function CheckedValue(checkTuples: bool, rows: seq<seq<Field>>, toF: string -> real): (r: Result<real, Exception>)
    ensures checkTuples ==> r == Success(|rows| as real)
    ensures !checkTuples ==> (r.Failure? <==> |rows| == 0)
    ensures !checkTuples && |rows| == 0 ==> r == Failure(NoMethodError("values"))
    ensures !checkTuples && |rows| > 0 ==> r == Success(FieldToF(FirstField(rows[0]), toF))
  {
    if checkTuples then Success(|rows| as real)
    else if |rows| == 0 then Failure(NoMethodError("values"))
    else Success(FieldToF(FirstField(rows[0]), toF))
  }

  /** In scalar mode only the first field of the first row matters. */
  lemma ScalarValueReadsFirstFieldOnly(rows1: seq<seq<Field>>, rows2: seq<seq<Field>>, toF: string -> real)
    requires |rows1| > 0 && |rows2| > 0 && FirstField(rows1[0]) == FirstField(rows2[0])
    ensures CheckedValue(false, rows1, toF) == CheckedValue(false, rows2, toF)
  {
  }

  // ---------------------------------------------------------------------------
  // Classification

  /** `config[:x] && calc.evaluate(config[:x], value: value)` is truthy. */
  predicate Fires(expr: Option<string>, value: real, evaluate: (string, real) -> RubyObject)
    ensures expr.None? ==> !Fires(expr, value, evaluate)
    ensures expr.Some? && evaluate(expr.value, value) == NilObject ==> !Fires(expr, value, evaluate)
    ensures expr.Some? && evaluate(expr.value, value) == BoolObject(true) ==> Fires(expr, value, evaluate)
  {
    expr.Some? && Truthy(evaluate(expr.value, value))
  }

  function ResultsMessage(rows: seq<seq<Field>>): (m: string)
    ensures |m| > 9 && m[..9] == "Results: " && m[9..] == Inspect(rows)
  {
    "Results: " + Inspect(rows)
  }

  /** The critical/warning/ok chain of `run`. */
  function Classify(critical: Option<string>, warning: Option<string>, value: real,
                    evaluate: (string, real) -> RubyObject, rows: seq<seq<Field>>): (s: Status)
    ensures s.Critical? <==> Fires(critical, value, evaluate)
    ensures s.Warning? <==> !Fires(critical, value, evaluate) && Fires(warning, value, evaluate)
    ensures s.Ok? <==> !Fires(critical, value, evaluate) && !Fires(warning, value, evaluate)
    ensures !s.Unknown?
    ensures s.message == (if s.Ok? then "Query OK, " else "") + ResultsMessage(rows)
  {
    if critical.Some? && Truthy(evaluate(critical.value, value)) then
      Critical(ResultsMessage(rows))
    else if warning.Some? && Truthy(evaluate(warning.value, value)) then
      Warning(ResultsMessage(rows))
    else
      Ok("Query OK, " + ResultsMessage(rows))
  }

  /** The threshold expressions handed to the calculator, in order; `&&` and `elsif` short-circuit. */
  function Evaluations(critical: Option<string>, warning: Option<string>, value: real,
                       evaluate: (string, real) -> RubyObject): (es: seq<string>)
    ensures critical.None? && warning.None? ==> es == []
    ensures Fires(critical, value, evaluate) ==> es == [critical.value]
    ensures |es| <= 2
  {
    (if critical.Some? then [critical.value] else [])
    + (if Fires(critical, value, evaluate) || warning.None? then [] else [warning.value])
  }

  /** The status depends on the calculator only at the expressions actually evaluated. */
  lemma ClassifyReadsOnlyEvaluations(critical: Option<string>, warning: Option<string>, value: real,
                                     evaluate1: (string, real) -> RubyObject, evaluate2: (string, real) -> RubyObject,
                                     rows: seq<seq<Field>>)
    requires forall e :: e in Evaluations(critical, warning, value, evaluate1) ==> evaluate1(e, value) == evaluate2(e, value)
    ensures Evaluations(critical, warning, value, evaluate1) == Evaluations(critical, warning, value, evaluate2)
    ensures Classify(critical, warning, value, evaluate1, rows) == Classify(critical, warning, value, evaluate2, rows)
  {
  }

  /** The reported status is the most severe threshold that fires, OK when none does. */
  lemma ClassifyIsMostSevereFiring(critical: Option<string>, warning: Option<string>, value: real,
                                   evaluate: (string, real) -> RubyObject, rows: seq<seq<Field>>)
    ensures ExitCode(Classify(critical, warning, value, evaluate, rows)) ==
      Max(if Fires(critical, value, evaluate) then 2 else 0, if Fires(warning, value, evaluate) then 1 else 0)
  {
  }

  function Max(a: nat, b: nat): nat
  {
    if a < b then b else a
  }

  /** A threshold the calculator cannot make truthy (nil, false, or no expression) never escalates. */
  lemma FalsyThresholdsGiveOk(critical: Option<string>, warning: Option<string>, value: real,
                              evaluate: (string, real) -> RubyObject, rows: seq<seq<Field>>)
    requires critical.None? || !Truthy(evaluate(critical.value, value))
    requires warning.None? || !Truthy(evaluate(warning.value, value))
    ensures Classify(critical, warning, value, evaluate, rows) == Ok("Query OK, Results: " + Inspect(rows))
  {
  }

  /** With a calculator that reads `value > 5` and `value > 10` as comparisons: 15, 7 and 3 give CRITICAL, WARNING and OK. */
  lemma ThresholdScenarios(evaluate: (string, real) -> RubyObject, rows: seq<seq<Field>>)
    requires forall v :: evaluate("value > 5", v) == BoolObject(v > 5.0)
    requires forall v :: evaluate("value > 10", v) == BoolObject(v > 10.0)
    ensures Classify(Some("value > 10"), Some("value > 5"), 15.0, evaluate, rows).Critical?
    ensures Classify(Some("value > 10"), Some("value > 5"), 7.0, evaluate, rows).Warning?
    ensures Classify(Some("value > 10"), Some("value > 5"), 3.0, evaluate, rows).Ok?
  {
  }

  // ---------------------------------------------------------------------------
  // The whole run

  /** `CheckMySQL#run`. */
  function Run(cfg: Config, env: Collaborators): (r: Outcome)
    ensures r.Exits? && r.status.Unknown? <==> Query(cfg, env).Success? && Query(cfg, env).value.DbError?
    ensures r.Raises? <==>
      Query(cfg, env).Failure? || (Query(cfg, env).value.Rows? && !cfg.checkTuples && |Query(cfg, env).value.rows| == 0)
  {
    match Query(cfg, env)
    case Failure(e) => Raises(e)
    case Success(DbError(message)) => Exits(Unknown(UnknownMessage(cfg, message)))
    case Success(Rows(rows)) =>
      match CheckedValue(cfg.checkTuples, rows, env.toF)
      case Failure(e) => Raises(e)
      case Success(value) => Exits(Classify(cfg.critical, cfg.warning, value, env.evaluate, rows))
  }

  /** The threshold expressions a run hands to the calculator: none unless rows came back and a value was taken. */
  function RunEvaluations(cfg: Config, env: Collaborators): (es: seq<string>)
    ensures Query(cfg, env).Failure? || Query(cfg, env).value.DbError? ==> es == []
  {
    match Query(cfg, env)
    case Success(Rows(rows)) =>
      (match CheckedValue(cfg.checkTuples, rows, env.toF)
       case Success(value) => Evaluations(cfg.critical, cfg.warning, value, env.evaluate)
       case Failure(_) => [])
    case _ => []
  }

  /**
   * The run depends on the calculator only at the expressions `RunEvaluations`
   * lists; in particular a run that fails before classification consults it nowhere.
   */
  lemma RunReadsOnlyRunEvaluations(cfg: Config, env: Collaborators, evaluate: (string, real) -> RubyObject)
    requires forall e, v :: e in RunEvaluations(cfg, env) ==> env.evaluate(e, v) == evaluate(e, v)
    ensures RunEvaluations(cfg, env.(evaluate := evaluate)) == RunEvaluations(cfg, env)
    ensures Run(cfg, env.(evaluate := evaluate)) == Run(cfg, env)
  {
    var env' := env.(evaluate := evaluate);
    assert Query(cfg, env') == Query(cfg, env);
    match Query(cfg, env)
    case Success(Rows(rows)) => {
      match CheckedValue(cfg.checkTuples, rows, env.toF)
      case Success(value) =>
        ClassifyReadsOnlyEvaluations(cfg.critical, cfg.warning, value, env.evaluate, evaluate, rows);
      case Failure(_) =>
    }
    case _ =>
  }

  /** With an ini path set, the run is the same whatever the explicit user and password flags say. */
  lemma RunIgnoresFlagsWithIni(cfg: Config, user: Option<string>, password: Option<string>, env: Collaborators)
    requires cfg.ini.Some?
    ensures Run(cfg.(user := user, password := password), env) == Run(cfg, env)
  {
    IniIgnoresExplicitFlags(cfg, user, password, env.loadIni);
  }

  /**
   * A driver error ends the run with UNKNOWN carrying the driver's text, and
   * neither the thresholds, the mode, the calculator nor the coercion is consulted.
   */
  lemma DbErrorIsUnknown(cfg: Config, env: Collaborators, message: string,
                         warning: Option<string>, critical: Option<string>, checkTuples: bool,
                         evaluate: (string, real) -> RubyObject, toF: string -> real)
    requires Query(cfg, env) == Success(DbError(message))
    ensures RunEvaluations(cfg, env) == []
    ensures Run(cfg, env) == Exits(Unknown(UnknownMessage(cfg, message)))
    ensures Run(cfg.(warning := warning, critical := critical, checkTuples := checkTuples),
                env.(evaluate := evaluate, toF := toF)) == Run(cfg, env)
  {
  }

  /** In tuples mode an empty result is the value 0, not an error. */
  lemma EmptyTuplesAreZero(cfg: Config, env: Collaborators)
    requires cfg.checkTuples && Query(cfg, env) == Success(Rows([]))
    ensures Run(cfg, env) == Exits(Classify(cfg.critical, cfg.warning, 0.0, env.evaluate, []))
  {
  }
}
