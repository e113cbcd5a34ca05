/** The public enumerations every client shares. */
module Enums {

  /** How a server's host key is checked against the known-hosts file. */
  datatype SSHHostKeyVerify = Strict | Warn | WarnAutoAdd | AutoAdd | VerifyNone

  /** The four kinds of tunnel a session keeps a table for. */
  datatype TunnelType = Local | Remote | Dynamic | X11

  /** The string each tunnel kind carries as its value. */
  function TunnelTypeValue(t: TunnelType): (s: string)
    ensures |s| > 0 && ':' !in s
  {
    match t
    case Local => "local"
    case Remote => "remote"
    case Dynamic => "dynamic"
    case X11 => "X11"
  }

  /** Distinct tunnel kinds carry distinct values, as a Python `Enum` requires. */
  lemma TunnelTypeValueInjective(a: TunnelType, b: TunnelType)
    requires TunnelTypeValue(a) == TunnelTypeValue(b)
    ensures a == b
  {
  }

  /** How loudly a tunnel's server reports an exception in one of its request handlers. */
  datatype TunnelErrorLevel = LevelNone | LevelWarn | LevelDebug | LevelError

}
