/** The listen-address default of main.go: the value of the PORT variable
    turned into a Go listen address of the form ":<port>". */
module Config {

  const DefaultAddr: string := ":8080"

  /** The `port` initialiser. `env` is the value of the PORT environment
      variable, "" when it is unset. */
  function ListenAddr(env: string): (addr: string)
    ensures |addr| > 0 && addr[0] == ':'
    ensures env == "" ==> addr == DefaultAddr
    ensures env != "" && env[0] == ':' ==> addr == env
    ensures env != "" && env[0] != ':' ==> addr[1..] == env
  {
    if env == "" then DefaultAddr
    else if env[0] != ':' then ":" + env
    else env
  }

  /** Normalising twice is normalising once: an address is a fixed point. */
  lemma ListenAddrIdempotent(env: string)
    ensures ListenAddr(ListenAddr(env)) == ListenAddr(env)
  {
  }

  /** A configured value always survives as the tail of the address: the
      line changes at most by putting one colon in front. */
  lemma ListenAddrKeepsValue(env: string)
    requires env != ""
    ensures |ListenAddr(env)| - |env| in {0, 1}
    ensures ListenAddr(env)[|ListenAddr(env)| - |env|..] == env
  {
  }

  /** A bare port and the same port written with its colon listen on the
      same address. */
  lemma ListenAddrColonOptional(env: string)
    requires env != "" && env[0] != ':'
    ensures ListenAddr(env) == ListenAddr(":" + env)
  {
  }
}
