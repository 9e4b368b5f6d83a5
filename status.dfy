/**
 The health-status labels the classifier returns, the Spanish text the
 service answers with, and the severity order the labels are named in.
 */
module HealthStatus {

  datatype Status =
    | NotSick          // "NO ENFERMO"
    | MildIllness      // "ENFERMEDAD LEVE"
    | AcuteIllness     // "ENFERMEDAD AGUDA"
    | ChronicIllness   // "ENFERMEDAD CRÓNICA"
    | TerminalIllness  // "ENFERMEDAD TERMINAL"

  /** The label as it appears in the service's response. */
  function Label(s: Status): string {
    match s
    case NotSick => "NO ENFERMO"
    case MildIllness => "ENFERMEDAD LEVE"
    case AcuteIllness => "ENFERMEDAD AGUDA"
    case ChronicIllness => "ENFERMEDAD CRÓNICA"
    case TerminalIllness => "ENFERMEDAD TERMINAL"
  }

  /** Severity rank: 0 for no illness up to 4 for a terminal one. */
  function Severity(s: Status): (rank: nat)
    ensures rank <= 4
    ensures rank == 4 <==> s == TerminalIllness
  {
    match s
    case NotSick => 0
    case MildIllness => 1
    case AcuteIllness => 2
    case ChronicIllness => 3
    case TerminalIllness => 4
  }

  /** Distinct statuses are rendered as distinct labels, so a label in a
      response identifies the status it came from. */
  lemma LabelInjective(a: Status, b: Status)
    ensures Label(a) == Label(b) ==> a == b
  {
  }
}
