/** The protocol's field names and type tags (`Constants.*` in the SDK). The file that
    defines them, Constants.cs, is not part of this model, so the spellings are assumed; the
    model relies only on their being pairwise distinct, which Dafny checks from the literals. */
module Constants {
  const Type: string := "type"
  const Success: string := "success"
  const ErrorCode: string := "errorCode"
  const Error: string := "error"
  const Message: string := "message"

  const Authentication: string := "authentication"
  const Authenticated: string := "authenticated"
  const ModuleId: string := "moduleId"
  const ModuleSecret: string := "moduleSecret"
  const SetCapabilities: string := "setCapabilities"

  const IncomingData: string := "incomingData"
  const ConnectedKais: string := "connectedKais"
  const ForegroundProcess: string := "foregroundProcess"
  const KaiId: string := "kaiId"
  const Hand: string := "hand"
  const Kais: string := "kais"
  const DefaultKai: string := "defaultKai"
  const DefaultLeftKai: string := "defaultLeftKai"
  const DefaultRightKai: string := "defaultRightKai"
  const Data: string := "data"

  // Fragment type tags, which are also the capability field names.
  const GestureData: string := "gestureData"
  const LinearFlickData: string := "linearFlickData"
  const FingerShortcutData: string := "fingerShortcutData"
  const FingerPositionalData: string := "fingerPositionalData"
  const PYRData: string := "pyrData"
  const QuaternionData: string := "quaternionData"
  const AccelerometerData: string := "accelerometerData"
  const GyroscopeData: string := "gyroscopeData"
  const MagnetometerData: string := "magnetometerData"

  // Payload fields.
  const Gesture: string := "gesture"
  const Fingers: string := "fingers"
  const Flick: string := "flick"
  const Pitch: string := "pitch"
  const Yaw: string := "yaw"
  const Roll: string := "roll"
  const Quaternion: string := "quaternion"
  const Accelerometer: string := "accelerometer"
  const Gyroscope: string := "gyroscope"
  const Magnetometer: string := "magnetometer"
  const W: string := "w"
  const X: string := "x"
  const Y: string := "y"
  const Z: string := "z"
}
