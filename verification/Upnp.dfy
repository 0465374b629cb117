/** Constants and small types that the other modules share. */
module Upnp {

  const NUM_HANDLE := 200

  const UPNP_E_SUCCESS := 0
  const UPNP_E_INVALID_HANDLE := -100
  const UPNP_E_INVALID_PARAM := -101
  const UPNP_E_OUTOF_HANDLE := -102
  const UPNP_E_OUTOF_MEMORY := -104
  const UPNP_E_INIT := -105
  const UPNP_E_INVALID_SID := -109
  const UPNP_E_FINISH := -116
  const UPNP_E_ALREADY_REGISTERED := -120

  datatype Option<+T> = None | Some(value: T)
}
