// Enumerations and scalar types shared across the reception and auth domains.
module Domain {
  /** An instant, in milliseconds since the epoch. */
  type Instant = int

  datatype LogFormat = JSON | TEXT | XML | BINARY | CUSTOM

  datatype BatchStatus = PENDING | PROCESSING | PROCESSED | FAILED

  datatype EndpointStatus = EndpointActive | EndpointInactive | Overloaded | EndpointError

  datatype EndpointType = HTTP | SDK | AGENT | TCP | UDP

  datatype AppAccessStatus = ACTIVE | INACTIVE | BLOCKED | EXPIRED

  /** AppAccessStatus.getInfo(). */
  function StatusInfo(s: AppAccessStatus): string
  {
    match s
    case ACTIVE => "应用接入处于活跃状态，可以正常访问"
    case INACTIVE => "应用接入处于不活跃状态，暂时无法访问"
    case BLOCKED => "应用接入被阻止，无法访问，通常是由于安全原因"
    case EXPIRED => "应用接入已过期，需要重新申请"
  }

  datatype AuthMethod = HMAC_SIGNATURE | API_KEY | IP_BASED | NONE
}
