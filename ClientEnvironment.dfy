/**
 `getClientEnv` of webpack.config.js: the part of the process environment
 that is exposed to the bundled client code. The process environment is a
 snapshot taken as a map from variable names to values; the result is the
 object handed to `JSON.stringify`, seeded with `NODE_ENV` and extended with
 every variable whose name passes `/^REACT_APP/i`.
 */
module ClientEnvironment {
  import opened Strings

  const NodeEnvKey: string := "NODE_ENV"

  /** A variable name that `getClientEnv` copies from the process environment. */
  predicate IsExposed(key: string)
  {
    HasReactAppPrefix(key)
  }

  /** The object `getClientEnv(nodeEnv)` builds from the process environment
      `process`: the seed `{ NODE_ENV: nodeEnv }` overridden by every exposed
      variable with its process value. */
  function ClientEnv(nodeEnv: string, process: map<string, string>): (env: map<string, string>)
    // Only NODE_ENV and exposed variables of the process ever appear.
    ensures forall k :: k in env ==> k == NodeEnvKey || (IsExposed(k) && k in process)
    // Every exposed variable appears with exactly its process value.
    ensures forall k :: k in process && IsExposed(k) ==> k in env && env[k] == process[k]
    // No exposed variable can be NODE_ENV, so the seed survives.
    ensures NodeEnvKey in env && env[NodeEnvKey] == nodeEnv
  {
    NotExposedNodeEnv();
    map[NodeEnvKey := nodeEnv] + map k | k in process && IsExposed(k) :: process[k]
  }

  /** `NODE_ENV` itself does not pass the `REACT_APP` test. */
  lemma NotExposedNodeEnv()
    ensures !IsExposed(NodeEnvKey)
  {
  }

  /** A variable that fails the prefix test (a secret, say) never reaches the
      client, whatever its value. */
  lemma SecretsStayHidden(nodeEnv: string, process: map<string, string>, key: string)
    requires key in process && !IsExposed(key) && key != NodeEnvKey
    ensures key !in ClientEnv(nodeEnv, process)
  {
  }

  /** The client environment depends on the process only through its exposed
      variables: changing or adding a variable that fails the test leaves it as it was. */
  lemma OnlyExposedVariablesMatter(nodeEnv: string, process: map<string, string>, key: string, value: string)
    requires !IsExposed(key)
    ensures ClientEnv(nodeEnv, process[key := value]) == ClientEnv(nodeEnv, process)
  {
  }

  /** `getClientEnv` as the source runs it: walk the keys of the process
      environment, in whatever order `Object.keys` gives them, and write each
      exposed one into the accumulator seeded with `NODE_ENV`. */
  method GetClientEnv(nodeEnv: string, process: map<string, string>) returns (env: map<string, string>)
    ensures env == ClientEnv(nodeEnv, process)
  {
    env := map[NodeEnvKey := nodeEnv];
    var pending := process.Keys;
    while pending != {}
      invariant pending <= process.Keys
      invariant env == ClientEnv(nodeEnv, process - pending)
      decreases pending
    {
      var key :| key in pending;
      ghost var before := process - pending;
      if IsExposed(key) {
        env := env[key := process[key]];
      }
      pending := pending - {key};
      assert process - pending == before[key := process[key]];
    }
    assert process - pending == process;
  }
}
