/** What the two config packages (core/internal/config/config.go and
    ms/internal/config/config.go) define identically: environment lookups
    with defaults, the database settings with their connection string, and
    the AMQP URL. The process environment is a map from names to values. */
module Env {
  import opened Wrappers
  import Strconv

  type Environment = map<string, string>

  /** `getEnv`: the variable's value when set and non-empty, else the
      default. */
  function GetEnv(env: Environment, key: string, default: string): string {
    if key in env && env[key] != "" then env[key] else default
  }

  /** `getEnvBool`: the parsed value when the variable is set, non-empty and a
      valid boolean spelling, else the default. */
  function GetEnvBool(env: Environment, key: string, default: bool): bool {
    if key in env && env[key] != "" then
      match Strconv.ParseBool(env[key])
      case Some(b) => b
      case None => default
    else default
  }

  /** The value a lookup sees: set and non-empty, or nothing. */
  function SetValue(env: Environment, key: string): Option<string> {
    if key in env && env[key] != "" then Some(env[key]) else None
  }

  /** Both lookups see only `SetValue`: environments that agree on it agree
      on every lookup of that variable. */
  lemma LookupsSeeSetValue(e1: Environment, e2: Environment, key: string)
    requires SetValue(e1, key) == SetValue(e2, key)
    ensures forall d :: GetEnv(e1, key, d) == GetEnv(e2, key, d)
    ensures forall d :: GetEnvBool(e1, key, d) == GetEnvBool(e2, key, d)
  {
  }

  /** An empty value counts as unset, a set non-empty value wins over the
      default, and so the result is empty only if the default is. */
  lemma GetEnvMeaning(env: Environment, key: string, default: string)
    ensures GetEnv(env[key := ""], key, default) == GetEnv(env - {key}, key, default) == default
    ensures key in env && env[key] != "" ==> GetEnv(env, key, default) == env[key]
    ensures GetEnv(env, key, default) == "" ==> default == ""
  {
  }

  /** The default is kept for an unset, empty or unparseable value; each of
      the true and false spellings overrides it. */
  lemma GetEnvBoolMeaning(env: Environment, key: string, default: bool)
    ensures GetEnvBool(env[key := ""], key, default) == GetEnvBool(env - {key}, key, default) == default
    ensures key in env && Strconv.ParseBool(env[key]).None? ==> GetEnvBool(env, key, default) == default
    ensures key in env && env[key] in {"1", "t", "T", "TRUE", "true", "True"} ==> GetEnvBool(env, key, default)
    ensures key in env && env[key] in {"0", "f", "F", "FALSE", "false", "False"} ==> !GetEnvBool(env, key, default)
  {
  }

  /** The first index of `c` in `s`. */
  function IndexOf(s: string, c: char): (r: Option<nat>)
    ensures r.Some? ==> r.value < |s| && s[r.value] == c && c !in s[..r.value]
    ensures r.None? ==> c !in s
  {
    if |s| == 0 then None
    else if s[0] == c then Some(0)
    else match IndexOf(s[1..], c)
      case None => None
      case Some(i) => Some(i + 1)
  }

  /** Cutting `a + [c] + b` at its first `c`, when `a` holds none, gives back
      `a` and `b`. */
  lemma CutAt(a: string, c: char, b: string)
    requires c !in a
    ensures IndexOf(a + [c] + b, c) == Some(|a|)
    ensures (a + [c] + b)[..|a|] == a && (a + [c] + b)[|a| + 1..] == b
  {
    assert (a + [c] + b)[|a|] == c;
  }

  /** `s` cut at every occurrence of `c`. */
  function Split(s: string, c: char): (r: seq<string>)
    ensures |r| >= 1
    decreases |s|
  {
    match IndexOf(s, c)
    case None => [s]
    case Some(i) => [s[..i]] + Split(s[i + 1..], c)
  }

  lemma SplitAfter(a: string, c: char, b: string)
    requires c !in a
    ensures Split(a + [c] + b, c) == [a] + Split(b, c)
  {
    CutAt(a, c, b);
  }

  const AmqpScheme := "amqp://"

  /** `RabbitMQConfig.URL`: the fields inserted with no escaping. */
  function AmqpUrl(user: string, password: string, host: string, port: string): string {
    AmqpScheme + user + ":" + password + "@" + host + ":" + port + "/"
  }

  datatype AmqpParts = AmqpParts(user: string, password: string, host: string, port: string)

  /** Reading the four fields back from a URL of that shape: the user up to
      the first ':', the password up to the next '@', the host up to the next
      ':', the port up to the final '/'. */
  function SplitAmqpUrl(s: string): Option<AmqpParts> {
    if |s| < |AmqpScheme| + 1 || s[..|AmqpScheme|] != AmqpScheme || s[|s| - 1] != '/' then None
    else
      var body := s[|AmqpScheme|..|s| - 1];
      match IndexOf(body, ':')
      case None => None
      case Some(i) =>
        var rest := body[i + 1..];
        match IndexOf(rest, '@')
        case None => None
        case Some(j) =>
          var rest2 := rest[j + 1..];
          match IndexOf(rest2, ':')
          case None => None
          case Some(k) => Some(AmqpParts(body[..i], rest[..j], rest2[..k], rest2[k + 1..]))
  }

  /** The URL gives back its fields when the user and host hold no ':' and
      the password no '@'. */
  lemma AmqpUrlRoundTrip(user: string, password: string, host: string, port: string)
    requires ':' !in user && '@' !in password && ':' !in host
    ensures SplitAmqpUrl(AmqpUrl(user, password, host, port)) == Some(AmqpParts(user, password, host, port))
  {
    var rest2 := host + [':'] + port;
    var rest := password + ['@'] + rest2;
    var body := user + [':'] + rest;
    AmqpUrlLayout(user, password, host, port);
    CutAt(user, ':', rest);
    CutAt(password, '@', rest2);
    CutAt(host, ':', port);
  }

  lemma AmqpUrlLayout(user: string, password: string, host: string, port: string)
    ensures var s := AmqpUrl(user, password, host, port);
            var body := user + [':'] + (password + ['@'] + (host + [':'] + port));
            && |s| == |AmqpScheme| + |body| + 1
            && s[..|AmqpScheme|] == AmqpScheme && s[|s| - 1] == '/'
            && s[|AmqpScheme|..|s| - 1] == body
  {
    var s := AmqpUrl(user, password, host, port);
    var body := user + [':'] + (password + ['@'] + (host + [':'] + port));
    assert s == AmqpScheme + body + "/";
  }

  /** Without escaping, different settings can give the same URL: an '@' in
      the password reads the same as one in the host. */
  lemma AmqpUrlAmbiguous()
    ensures AmqpUrl("guest", "p@ss", "broker", "5672") == AmqpUrl("guest", "p", "ss@broker", "5672")
    ensures AmqpParts("guest", "p@ss", "broker", "5672") != AmqpParts("guest", "p", "ss@broker", "5672")
  {
  }

  datatype DatabaseConfig = DatabaseConfig(
    Host: string, Port: string, User: string, Password: string, DBName: string, SSLMode: string)

  /** `DatabaseConfig.DSN`: the six `key=value` words host, port, user,
      password, dbname and sslmode, in this order, separated by single spaces,
      with no quoting. */
  function Dsn(c: DatabaseConfig): string {
    Join(DsnWordList(c), ' ')
  }

  function DsnWordList(c: DatabaseConfig): seq<string> {
    ["host=" + c.Host, "port=" + c.Port, "user=" + c.User,
     "password=" + c.Password, "dbname=" + c.DBName, "sslmode=" + c.SSLMode]
  }


  /** The value of a `key=value` word with the expected key. */
  function ValueOf(word: string, key: string): Option<string> {
    var prefix := key + "=";
    if |word| >= |prefix| && word[..|prefix|] == prefix then Some(word[|prefix|..]) else None
  }

  lemma ValueOfWord(key: string, value: string)
    ensures ValueOf(key + "=" + value, key) == Some(value)
  {
    var w := key + "=" + value;
    assert w[..|key + "="|] == key + "=";
    assert w[|key + "="|..] == value;
  }

  /** Reading the six settings back from a connection string. */
  function ParseDsn(s: string): Option<DatabaseConfig> {
    var w := Split(s, ' ');
    if |w| != 6 then None
    else match (ValueOf(w[0], "host"), ValueOf(w[1], "port"), ValueOf(w[2], "user"),
                ValueOf(w[3], "password"), ValueOf(w[4], "dbname"), ValueOf(w[5], "sslmode"))
      case (Some(h), Some(p), Some(u), Some(pw), Some(d), Some(m)) => Some(DatabaseConfig(h, p, u, pw, d, m))
      case _ => None
  }

  /** The connection string gives back every setting when none holds a
      space. */
  lemma DsnRoundTrip(c: DatabaseConfig)
    requires ' ' !in c.Host && ' ' !in c.Port && ' ' !in c.User
    requires ' ' !in c.Password && ' ' !in c.DBName && ' ' !in c.SSLMode
    ensures ParseDsn(Dsn(c)) == Some(c)
  {
    DsnWords(c);
    ValueOfWord("host", c.Host);
    ValueOfWord("port", c.Port);
    ValueOfWord("user", c.User);
    ValueOfWord("password", c.Password);
    ValueOfWord("dbname", c.DBName);
    ValueOfWord("sslmode", c.SSLMode);
  }

  /** The words of `ws` with `c` between each two. */
  function Join(ws: seq<string>, c: char): string
    requires |ws| >= 1
  {
    if |ws| == 1 then ws[0] else ws[0] + [c] + Join(ws[1..], c)
  }

  /** Cutting a joined string at the separator gives back the words, when
      none of them holds the separator. */
  lemma {:induction false} SplitJoin(ws: seq<string>, c: char)
    requires |ws| >= 1
    requires forall i :: 0 <= i < |ws| ==> c !in ws[i]
    ensures Split(Join(ws, c), c) == ws
  {
    if |ws| == 1 {
      assert IndexOf(ws[0], c).None?;
    } else {
      SplitJoin(ws[1..], c);
      SplitAfter(ws[0], c, Join(ws[1..], c));
    }
  }

  lemma DsnWords(c: DatabaseConfig)
    requires ' ' !in c.Host && ' ' !in c.Port && ' ' !in c.User
    requires ' ' !in c.Password && ' ' !in c.DBName && ' ' !in c.SSLMode
    ensures Split(Dsn(c), ' ') == DsnWordList(c)
  {
    var ws := DsnWordList(c);
    assert ' ' !in "host=" && ' ' !in "port=" && ' ' !in "user=";
    assert ' ' !in "password=" && ' ' !in "dbname=" && ' ' !in "sslmode=";
    assert forall i :: 0 <= i < |ws| ==> ' ' !in ws[i];
    SplitJoin(ws, ' ');
  }
}
