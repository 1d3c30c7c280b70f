/** The server's choice of listening port: `process.env.PORT || 3000`. */
module App {
  const DefaultPort: nat := 3000

  /** Environment values are strings; the default is a number. */
  datatype Port = FromEnvironment(value: string) | Default(number: nat)

  /** `PORT` wins when it is set to a non-empty (truthy) string; otherwise 3000. */
  function ListeningPort(env: map<string, string>): (p: Port)
    ensures p.FromEnvironment? <==> "PORT" in env && env["PORT"] != ""
    ensures p.FromEnvironment? ==> p.value == env["PORT"] && p.value != ""
    ensures p.Default? ==> p.number == DefaultPort
  {
    if "PORT" in env && env["PORT"] != "" then FromEnvironment(env["PORT"]) else Default(DefaultPort)
  }

  /** Setting `PORT` to any non-empty value selects exactly that value. */
  lemma PortOverride(env: map<string, string>, v: string)
    requires v != ""
    ensures ListeningPort(env["PORT" := v]) == FromEnvironment(v)
  {
  }

  /** An empty `PORT` is falsy and behaves as if it were unset. */
  lemma EmptyPortIsUnset(env: map<string, string>)
    ensures ListeningPort(env["PORT" := ""]) == ListeningPort(env - {"PORT"})
    ensures ListeningPort(env - {"PORT"}) == Default(DefaultPort)
  {
  }

  /** No other variable of the environment affects the port. */
  lemma OnlyPortMatters(env1: map<string, string>, env2: map<string, string>)
    requires "PORT" in env1 <==> "PORT" in env2
    requires "PORT" in env1 ==> env1["PORT"] == env2["PORT"]
    ensures ListeningPort(env1) == ListeningPort(env2)
  {
  }
}
