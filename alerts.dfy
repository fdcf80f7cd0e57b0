/** The `alert` state the components share: shown or hidden, a message and a severity. */
module Alerts {

  datatype Severity = InfoAlert | SuccessAlert | ErrorAlert

  datatype Alert = Alert(show: bool, message: string, severity: Severity)

  /** `{ show: false, message: '', severity: 'info' }` */
  const Hidden: Alert := Alert(false, "", InfoAlert)

  /** What `showAlert(message, severity)` sets; the 3-second reset timer is not modelled. */
  function Shown(message: string, severity: Severity): Alert {
    Alert(true, message, severity)
  }
}
