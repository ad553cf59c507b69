/** The MAAS inventory as the controllers read it: machines and VMs by system ID. */
module Inventory {

  /** parent is the system ID of the backing host for an LXD VM and "" for bare metal. */
  datatype Node = Node(
    parent: string,
    hostname: string,
    powerType: string,
    powerState: string,
    state: string,
    zone: string,
    pool: string,
    tags: seq<string>)

  type Nodes = map<string, Node>
}
