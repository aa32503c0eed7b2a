/** src/oracle_db/connection_string.py: the easy-connect string the SQL probes pass
    to oracledb.connect. The port is an int; the timeout is kept as the text its
    str() gives. */
module ConnectionString {
  import opened Text

  /** get_connection_string: credentials, "@", host and port, "/", service, then
      the timeout parameter; the parts are inserted as they are. */
  function Get(host: string, service: string, user: string, password: string, port: int, timeout: string): (r: string)
    ensures |r| == |user| + |password| + |host| + |IntToDecimal(port)| + |service| + |timeout| + 31
    ensures r[..|user| + 1] == user + "/"
    ensures r[|r| - |timeout| - 27..] == "?transport_connect_timeout=" + timeout
  {
    var hostPort := host + ":" + IntToDecimal(port);
    var credentials := user + "/" + password;
    var timeoutParam := "?transport_connect_timeout=" + timeout;
    credentials + "@" + hostPort + "/" + service + timeoutParam
  }

  /** The one-line format the single-command scripts and the root benchmark build
      inline. */
  function Inline(host: string, service: string, user: string, password: string, port: int, timeout: string): string {
    user + "/" + password + "@" + host + ":" + IntToDecimal(port) + "/" + service
      + "?transport_connect_timeout=" + timeout
  }

  /** Both ways of building the string give the same text. */
  lemma InlineAgrees(host: string, service: string, user: string, password: string, port: int, timeout: string)
    ensures Inline(host, service, user, password, port, timeout) == Get(host, service, user, password, port, timeout)
  {
  }

  /** Nothing is escaped: a "/" in the password reads as well as a "/" that ends
      the user name, so two different logins give the same string. */
  lemma PasswordNotEscaped(host: string, service: string, port: int, timeout: string)
    ensures Get(host, service, "scott", "ti/ger", port, timeout) == Get(host, service, "scott/ti", "ger", port, timeout)
  {
    assert "scott" + "/" + "ti/ger" == "scott/ti" + "/" + "ger";
  }
}
