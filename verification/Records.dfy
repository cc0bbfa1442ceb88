/** The vault data model: clocks, kinds, fields and record snapshots. */
module Records {
  import opened Wrappers

  /** A 16-byte identifier. Its byte order is the order of the numbers. */
  type Uuid = nat

  /** The default share, which every device of the vault holds. */
  const NIL: Uuid := 0

  /** Lamport clock with the device id as tiebreak. */
  datatype Clock = Clock(lamport: nat, device: Uuid) {
    predicate Before(other: Clock) {
      lamport < other.lamport || (lamport == other.lamport && device < other.device)
    }

    predicate AtMost(other: Clock) {
      this == other || Before(other)
    }
  }

  datatype Kind = Tombstone | Host | Snippet | PortForward | KeyMeta | PrivateKey | ShareName {
    /** Declaration order; a tombstone is below every live kind. */
    function Rank(): nat {
      match this
      case Tombstone => 0
      case Host => 1
      case Snippet => 2
      case PortForward => 3
      case KeyMeta => 4
      case PrivateKey => 5
      case ShareName => 6
    }
  }

  datatype Json =
    | JNull
    | JBool(b: bool)
    | JNumber(n: int)
    | JString(s: string)
    | JArray(items: seq<Json>)
    | JObject(members: seq<Member>)

  datatype Member = Member(name: string, value: Json)

  datatype Field = Field(value: Json, clock: Clock)

  type Fields = map<string, Field>

  /** An immutable snapshot of one record; the unit that is sealed and merged. */
  datatype Record = Record(
    id: Uuid,
    kind: Kind,
    fields: Fields,
    deletedAt: Option<Clock>,
    clock: Clock,
    deviceId: Uuid,
    modifiedAt: nat,
    shareId: Uuid)

  /** A record is deleted when its tombstone clock is above every field clock. */
  predicate IsDeleted(r: Record) {
    r.deletedAt.Some? && forall n | n in r.fields :: r.fields[n].clock.Before(r.deletedAt.value)
  }

  predicate Live(r: Record) {
    !IsDeleted(r) && !r.kind.Tombstone?
  }

  /** The members of a JSON object have distinct names. */
  ghost predicate UniqueNames(members: seq<Member>) {
    forall i, j | 0 <= i < j < |members| :: members[i].name != members[j].name
  }

  function ValuesOf(members: seq<Member>): (values: map<string, Json>)
    requires UniqueNames(members)
    ensures forall i | 0 <= i < |members| :: members[i].name in values && values[members[i].name] == members[i].value
    ensures forall n | n in values :: exists i | 0 <= i < |members| :: members[i].name == n
  {
    map i | 0 <= i < |members| :: members[i].name := members[i].value
  }

  /** The field map of a payload, every field stamped with `clock`. */
  function FieldsFromPayload(values: map<string, Json>, clock: Clock): Fields {
    map n | n in values :: Field(values[n], clock)
  }
}
