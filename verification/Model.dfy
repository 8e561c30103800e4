/** The information model shared by every layer: identifiers, errors, descriptors and records. */
module Model {

  datatype Option<+T> = None | Some(value: T)

  /** The error values of the system that the modelled operations can produce. */
  datatype FError =
    | ZConnectorError
    | TooMuchError
    | TransitionNotAllowed
    | NotFound
    | WrongKind
    | NotConnected
    | AlreadyPresent
    | Unimplemented
    | MalformedDescriptor
    | HasInstances
    | UnknownError(reason: string)
    | HypervisorError(reason: string)
    | UUIDError(reason: string)

  datatype Result<+T> = Ok(value: T) | Err(error: FError)

  // ---------------------------------------------------------------- identifiers

  predicate IsHexDigit(c: char) {
    '0' <= c <= '9' || 'a' <= c <= 'f'
  }

  /** The text form of section 3 of RFC 4122: 36 characters, lower-case hexadecimal digits in
      groups of 8-4-4-4-12 separated by hyphens. */
  predicate IsUuidText(s: string) {
    && |s| == 36
    && forall i | 0 <= i < 36 :: if i in {8, 13, 18, 23} then s[i] == '-' else IsHexDigit(s[i])
  }

  type UuidText = s: string | IsUuidText(s) witness "00000000-0000-0000-0000-000000000000"

  datatype Uuid = Uuid(text: UuidText)

  // ---------------------------------------------------------------- FDU descriptors

  datatype InterfaceKind = VIRTUAL | WLAN | BLUETOOTH

  datatype VifKind = PARAVIRT | PCI_PASSTHROUGH | SR_IOV | VIRTIO | E1000 | RTL8139 | PCNET | BRIDGED | PHYSICAL

  datatype Interface = Interface(
    name: string,
    kind: InterfaceKind,
    macAddress: Option<string>,
    vifKind: VifKind,
    parent: Option<string>,
    cpId: Option<string>)

  datatype ConnectionPointDescriptor = ConnectionPointDescriptor(name: string, id: string)

  datatype ComputationalRequirements = ComputationalRequirements(
    cpuArch: string,
    cpuMinFreq: nat,
    cpuMinCount: nat,
    ramSizeMb: nat,
    storageSizeMb: nat)

  datatype FDUDescriptor = FDUDescriptor(
    uuid: Option<Uuid>,
    hypervisor: string,
    imageUri: Option<string>,
    requirements: ComputationalRequirements,
    interfaces: seq<Interface>,
    connectionPoints: seq<ConnectionPointDescriptor>)

  // ---------------------------------------------------------------- FDU records

  datatype FDUState = DEFINED | CONFIGURED | RUNNING | ERROR(reason: string)

  datatype FDURecordInterface = FDURecordInterface(
    name: string,
    kind: InterfaceKind,
    macAddress: Option<string>,
    vifKind: VifKind,
    cpUuid: Option<Uuid>,
    intfUuid: Uuid)

  datatype FDURecordConnectionPoint = FDURecordConnectionPoint(uuid: Uuid, id: string)

  /** hypervisorSpecific is the namespace the dummy hypervisor serialises into the record. */
  datatype FDURecord = FDURecord(
    uuid: Uuid,
    fduUuid: Uuid,
    node: Uuid,
    interfaces: seq<FDURecordInterface>,
    connectionPoints: seq<FDURecordConnectionPoint>,
    status: FDUState,
    hypervisorSpecific: Option<Uuid>,
    restarts: nat)

  // ---------------------------------------------------------------- entities

  datatype EntityStatus =
    | ONBOARDING | ONBOARDED | STARTING | RUNNING_ENTITY
    | STOPPING | STOPPED | OFFLOADING | OFFLOADED
    | ERROR_ENTITY(cause: FError)

  datatype EntityDescriptor = EntityDescriptor(uuid: Option<Uuid>, name: string, fdus: seq<FDUDescriptor>)

  datatype EntityRecord = EntityRecord(uuid: Uuid, id: Uuid, status: EntityStatus, fdus: seq<Uuid>)

  // ---------------------------------------------------------------- lists

  predicate NoDup<T(==)>(s: seq<T>) {
    forall i, j | 0 <= i < j < |s| :: s[i] != s[j]
  }

  lemma NoDupAppend<T>(s: seq<T>, x: T)
    requires NoDup(s) && x !in s
    ensures NoDup(s + [x])
  {
  }

  lemma EmptyIff<T(!new)>(s: seq<T>)
    ensures s == [] <==> forall x :: x !in s
  {
    if s != [] { assert s[0] in s; }
  }

  /** A list with the first occurrence of x taken out, as Vec::remove at Iterator::position does. */
  function RemoveFirst<T(==)>(s: seq<T>, x: T): (r: seq<T>)
    requires x in s
    ensures |r| == |s| - 1
    ensures multiset(r) == multiset(s) - multiset{x}
    ensures forall y | y in s && y != x :: y in r
    ensures forall y | y in r :: y in s
  {
    assert s == [s[0]] + s[1..];
    if s[0] == x then s[1..] else [s[0]] + RemoveFirst(s[1..], x)
  }
}
