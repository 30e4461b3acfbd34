/**
 * The GATT identifiers the companion app talks to, and the descriptor values
 * it writes. All are 16-bit assigned numbers carried in the Bluetooth Base
 * UUID `0000xxxx-0000-1000-8000-00805f9b34fb` (Bluetooth Core Specification,
 * Vol 3, Part B, section 2.5.1), written in the lower-case form that
 * `UUID.toString` produces.
 */
module Uuids {
  newtype byte = x: int | 0 <= x < 256

  /** `SERVICE_UUID`: the watch's GATT service. */
  const ServiceUuid := "00001809-0000-1000-8000-00805f9b34fb"
  /** `COMMAND_UUID`: the command characteristic that must be present. */
  const CommandUuid := "00002a37-0000-1000-8000-00805f9b34fb"
  /** `CHARACTERISTIC_NOTIFICATION_UPDATE`: the characteristic subscribed to. */
  const NotificationUpdateUuid := "00002902-0000-1000-8000-00805f9b34fb"
  /** The Client Characteristic Configuration descriptor (Vol 3, Part G, section 3.3.3.3). */
  const CccdUuid := "00002902-0000-1000-8000-00805f9b34fb"

  /** `ENABLE_NOTIFICATION_VALUE` and `DISABLE_NOTIFICATION_VALUE`: the CCCD value, little-endian. */
  const EnableNotificationValue: seq<byte> := [0x01, 0x00]
  const DisableNotificationValue: seq<byte> := [0x00, 0x00]

  /** The characteristic the app subscribes to is looked up under the CCCD's own UUID. */
  lemma NotificationUpdateIsCccd()
    ensures NotificationUpdateUuid == CccdUuid
    ensures EnableNotificationValue != DisableNotificationValue
  {
  }
}
