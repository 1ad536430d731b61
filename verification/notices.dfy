/** The messages the renderer reports through `onError` / `setError`. */
module Notices {
  import opened Wrappers

  /** What failed. The cause is the error's message (`e.message` or `String(e)`). */
  datatype Notice =
    | DiscoveryUnavailable
    | PollingUnavailable
    | ConnectUnavailable
    | CoilPollFailed(cause: string)
    | InputPollFailed(cause: string)
    | InputRegisterPollFailed(cause: string)
    | HoldingRegisterPollFailed(cause: string)
    | CoilWriteFailed(cause: string)
    | RegisterWriteFailed(cause: string)
    | ConnectFailed(cause: string)
  {
    /** The text shown in the alert. */
    function Text(): string {
      match this
      case DiscoveryUnavailable => "Discovery is unavailable in a browser tab. Please run inside Electron (npm run dev)."
      case PollingUnavailable => "Polling unavailable in browser tab. Please run inside Electron (npm run dev)."
      case ConnectUnavailable => "Cannot connect in browser tab. Please run inside Electron (npm run dev)."
      case CoilPollFailed(c) => "Failed to poll coils: " + c
      case InputPollFailed(c) => "Failed to poll inputs: " + c
      case InputRegisterPollFailed(c) => "Failed to poll input registers: " + c
      case HoldingRegisterPollFailed(c) => "Failed to poll holding registers: " + c
      case CoilWriteFailed(c) => "Failed to write coil: " + c
      case RegisterWriteFailed(c) => "Failed to write register: " + c
      case ConnectFailed(c) => "Failed to connect: " + c
    }
  }
}
