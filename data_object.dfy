/** The plain configuration records a caller hands to the client. */
module DataObject {
  import opened Wrappers

  /** A user name and password. */
  datatype IdentityDO = IdentityDO(userName: string, password: string)

  /**
    ClientConfigurationDO. The certificate store is carried but never read by the client:
    its own certificate store is always null.
   */
  datatype ClientConfigurationDO = ClientConfigurationDO(
    applicationName: string,
    endpointUrl: string,
    userIdentity: Option<IdentityDO>,
    certificateStore: Option<string>)
}
