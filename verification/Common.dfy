/** Types shared by every model of the project. */
module Common {
  datatype Option<+T> = None | Some(value: T)

  /** `Number.MAX_SAFE_INTEGER` in the backend and `MQTT_SEQUENCE_MAX` in the firmware. */
  const MAX_SEQUENCE: nat := 9007199254740991
}
