/** Disconnect reasons and the PDP causes that carry them across the modem.
    A reason is encoded when an active connection is asked to disconnect
    and decoded when the handler sees the completion. */
module ReasonCodes {
  datatype DisconnectReason =
    | ReasonNormal
    | ReasonGsmAndCallingOnly
    | ReasonRetry
    | ReasonClear
    | ReasonChange
    | ReasonPermanentReject
    | ReasonHandover

  /** Causes as the code names them. NoError is the value 0, which the setup
      path treats as success; Unnamed stands for every other cause value. */
  datatype PdpError =
    | NoError
    | Retry
    | ToNormal
    | ToGsmAndCallingOnly
    | ToClearConnection
    | ToChangeConnection
    | ToPermanentReject
    | OperatorDeterminedBarring
    | MissingOrUnknownApn
    | UnknownPdpAddrOrType
    | UserVerification
    | ActivationRejectedGgsn
    | ServiceOptionNotSupported
    | RequestedServiceOptionNotSubscribed
    | NsapiAlreadyUsed
    | Ipv4OnlyAllowed
    | Ipv6OnlyAllowed
    | ProtocolErrors
    | Unnamed(code: int)

  /** Look-up in the reason map of the active state. A reason that the map lacks
      is default-inserted by operator[], which yields the zero cause. */
  function ToPdpError(reason: DisconnectReason): PdpError {
    match reason
    case ReasonNormal => ToNormal
    case ReasonGsmAndCallingOnly => ToGsmAndCallingOnly
    case ReasonRetry => Retry
    case ReasonClear => ToClearConnection
    case ReasonChange => ToChangeConnection
    case ReasonPermanentReject => ToPermanentReject
    case ReasonHandover => NoError
  }

  /** The handler's reading of a cause, extension hooks off. */
  function ToDisconnectReason(cause: PdpError): DisconnectReason {
    match cause
    case ToNormal => ReasonNormal
    case ToGsmAndCallingOnly => ReasonGsmAndCallingOnly
    case ToClearConnection => ReasonClear
    case ToChangeConnection => ReasonChange
    case ToPermanentReject => ReasonPermanentReject
    case OperatorDeterminedBarring => ReasonPermanentReject
    case MissingOrUnknownApn => ReasonPermanentReject
    case UnknownPdpAddrOrType => ReasonPermanentReject
    case UserVerification => ReasonPermanentReject
    case ActivationRejectedGgsn => ReasonPermanentReject
    case ServiceOptionNotSupported => ReasonPermanentReject
    case RequestedServiceOptionNotSubscribed => ReasonPermanentReject
    case NsapiAlreadyUsed => ReasonPermanentReject
    case Ipv4OnlyAllowed => ReasonPermanentReject
    case Ipv6OnlyAllowed => ReasonPermanentReject
    case ProtocolErrors => ReasonPermanentReject
    case _ => ReasonRetry
  }
}
