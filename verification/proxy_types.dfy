/**
 Value types of the proxy-redirection subsystem.
 */
module ProxyTypes {
  import opened Base

  /** The proxy's configuration: where calls go, who may redirect them, how
      many implementations have been installed, and when it last changed. */
  datatype ProxyConfig = ProxyConfig(
    implementation: Address,
    admin: Address,
    version: u32,
    lastUpdated: u64)

  /** One audit record of an implementation change. */
  datatype UpgradeTransaction = UpgradeTransaction(
    id: u64,
    newImplementation: Address,
    initiator: Address,
    timestamp: u64,
    success: bool,
    failureReason: Option<string>)
}
