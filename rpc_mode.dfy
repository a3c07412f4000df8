/** The calling-convention mode of an exported method (`RpcMode`). */
module RpcModes {
  import opened Wrappers

  datatype RpcMode = Disabled | Remote | RemoteSync | Master | Puppet | MasterSync | PuppetSync

  /** The mode used when no `rpc` option is given (`impl Default for RpcMode`). */
  const DefaultRpcMode: RpcMode := Disabled

  /** The token that selects each mode in `rpc = "..."`. */
  function RpcToken(m: RpcMode): string {
    match m
    case Disabled => "disabled"
    case Remote => "remote"
    case RemoteSync => "remote_sync"
    case Master => "master"
    case Puppet => "puppet"
    case MasterSync => "master_sync"
    case PuppetSync => "puppet_sync"
  }

  const RpcTokens: set<string> :=
    {"remote", "remote_sync", "master", "puppet", "disabled", "master_sync", "puppet_sync"}

  /** `RpcMode::parse`: exactly the seven tokens are recognised, case-sensitively. */
  function ParseRpcMode(s: string): (r: Option<RpcMode>)
    ensures r.Some? <==> s in RpcTokens
    ensures r.Some? ==> RpcToken(r.value) == s
  {
    if s == "remote" then Some(Remote)
    else if s == "remote_sync" then Some(RemoteSync)
    else if s == "master" then Some(Master)
    else if s == "puppet" then Some(Puppet)
    else if s == "disabled" then Some(Disabled)
    else if s == "master_sync" then Some(MasterSync)
    else if s == "puppet_sync" then Some(PuppetSync)
    else None
  }

  /** Every mode is selected by its own token, so parsing is a bijection
      between the seven tokens and the seven modes. */
  lemma RpcTokenRoundTrip(m: RpcMode)
    ensures RpcToken(m) in RpcTokens
    ensures ParseRpcMode(RpcToken(m)) == Some(m)
  {
  }
}
