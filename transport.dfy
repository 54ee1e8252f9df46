/** The abstract BLE transport that stands in for the vendor stack: the
    client link with the peer's GATT table, the peers that accept a
    connection, the bytes a characteristic read returns, and the log of
    calls the firmware makes into the stack. */
module BleTransport {

  import opened Options
  import opened Hex

  type Uuid = string

  /** A remote characteristic reference: characteristic `uuid` of service
      `service` on the connected peer (a `BLERemoteCharacteristic*`). */
  datatype CharRef = CharRef(service: Uuid, uuid: Uuid)

  /** A peer's GATT table: each service UUID with its characteristic UUIDs. */
  type Gatt = map<Uuid, set<Uuid>>

  /** The client (`pClient`): `connected` is `pClient != nullptr &&
      pClient->isConnected()`; `services` is the table of the peer it was
      last opened to. */
  datatype Link = Link(connected: bool, services: Gatt)

  const NoClient := Link(false, map[])

  /** The world the stack reaches: the addresses that accept a connection,
      with their tables, and what reading each characteristic returns. */
  datatype Radio = Radio(peers: map<string, Gatt>, readValue: CharRef -> seq<uint8>)

  /** A call into the vendor stack, recorded in order. */
  datatype Call =
    | InitServer                       // BLEDevice::init, createServer, createService, createCharacteristic, start
    | Init                             // BLEDevice::init alone
    | StartAdvertising
    | StopAdvertising
    | Scan
    | CreateClient
    | Connect(address: string)
    | GetServices
    | GetService(service: Uuid)
    | GetCharacteristic(service: Uuid, uuid: Uuid)
    | ReadValue(ref: CharRef)
    | RegisterForNotify(ref: CharRef, enable: bool)

  /** `pClient->getService(uuid)`: the reference, or null when the peer has
      no such service. */
  function LookupService(link: Link, uuid: Uuid): (r: Option<Uuid>)
    ensures r.Some? <==> uuid in link.services
    ensures r.Some? ==> r.value == uuid
  {
    if uuid in link.services then Some(uuid) else None
  }

  /** `service->getCharacteristic(uuid)`. */
  function LookupCharacteristic(link: Link, service: Uuid, uuid: Uuid): (r: Option<CharRef>)
    ensures r.Some? <==> service in link.services && uuid in link.services[service]
    ensures r.Some? ==> r.value == CharRef(service, uuid)
  {
    if service in link.services && uuid in link.services[service] then Some(CharRef(service, uuid)) else None
  }
}
