/**
 * The HCI commands and events that the Classic ACL manager sends and receives,
 * as abstract values (Bluetooth Core Specification, Volume 4, Part E).
 * Field names follow the parameters of the specification; no wire encoding is modelled.
 */
module Hci {

  /** BD_ADDR: an opaque 48-bit device address. */
  newtype Address = a: int | 0 <= a < 0x1_0000_0000_0000

  /** Connection_Handle, carried in a u16. */
  newtype Handle = h: int | 0 <= h < 0x1_0000

  /** An HCI error code (Volume 1, Part F); 0x00 is Success. */
  newtype ErrorCode = c: int | 0 <= c < 0x100

  const Success: ErrorCode := 0x00

  /** Link role of the local device on an established connection. */
  datatype Role = Central | Peripheral

  /** Reason parameter of the Disconnect command (section 7.1.6). */
  datatype DisconnectReason =
    | AuthenticationFailure
    | RemoteUserTerminatedConnection
    | RemoteDeviceTerminatedConnectionLowResources
    | RemoteDeviceTerminatedConnectionPowerOff
    | UnsupportedRemoteFeature
    | PairingWithUnitKeyNotSupported
    | UnacceptableConnectionParameters

  /** Reason parameter of the Reject Connection Request command (section 7.1.9). */
  datatype RejectConnectionReason = LimitedResources | SecurityReasons | UnacceptableBdAddr

  /** Role parameter of the Accept Connection Request command (section 7.1.8). */
  datatype AcceptConnectionRequestRole = BecomeCentral | RemainPeripheral

  /** Page_Scan_Repetition_Mode of the Create Connection command (section 7.1.5). */
  datatype PageScanRepetitionMode = R0 | R1 | R2

  /** Bit 15 of Clock_Offset in the Create Connection command. */
  datatype ClockOffsetValid = OffsetInvalid | OffsetValid

  /** Allow_Role_Switch of the Create Connection command. */
  datatype CreateConnectionRoleSwitch = RemainCentral | AllowRoleSwitch

  // Packet_Type bits of the Create Connection command (section 7.1.5) that
  // enable the basic-rate ACL packet types.
  const Dm1: bv16 := 0x0008
  const Dh1: bv16 := 0x0010
  const Dm3: bv16 := 0x0400
  const Dh3: bv16 := 0x0800
  const Dm5: bv16 := 0x4000
  const Dh5: bv16 := 0x8000

  /** The commands the manager sends to the controller. */
  datatype Command =
    | CreateConnection(bdAddr: Address, packetType: bv16,
                       pageScanRepetitionMode: PageScanRepetitionMode,
                       clockOffset: bv15, clockOffsetValid: ClockOffsetValid,
                       allowRoleSwitch: CreateConnectionRoleSwitch)     // section 7.1.5
    | Disconnect(connectionHandle: Handle, reason: DisconnectReason)   // section 7.1.6
    | CreateConnectionCancel(bdAddr: Address)                          // section 7.1.7
    | AcceptConnectionRequest(bdAddr: Address, role: AcceptConnectionRequestRole)        // section 7.1.8
    | RejectConnectionRequest(bdAddr: Address, rejectReason: RejectConnectionReason)     // section 7.1.9

  /** The events the manager receives from the controller. */
  datatype EventPacket =
    | ConnectionComplete(status: ErrorCode, connectionHandle: Handle, bdAddr: Address)   // section 7.7.3
    | ConnectionRequest(bdAddr: Address)                                               // section 7.7.4
    | DisconnectionComplete(status: ErrorCode, connectionHandle: Handle, reason: ErrorCode) // section 7.7.5
    | AuthenticationComplete(status: ErrorCode, connectionHandle: Handle)              // section 7.7.6
}
