/** The JSON values the handlers hand to `res.json(...)`.  An object is a
    finite map from member names to values; the order in which the object
    literal writes its members is not kept. */
module Json {

  import opened Wrappers

  /** The member names the app writes; `KeyName` gives each one's spelling
      in the serialised object. */
  datatype Key =
    | Message | Timestamp | Environment | Version | Error | Data
    | Id | Name | Email | Role | JoinedDate | IsActive
    | Title | Description | Status | CreatedAt | Count | RequiredFields
    | SubmittedAt | Uptime | Service | AvailableEndpoints

  function KeyName(k: Key): string
  {
    match k
    case Message => "message"
    case Timestamp => "timestamp"
    case Environment => "environment"
    case Version => "version"
    case Error => "error"
    case Data => "data"
    case Id => "id"
    case Name => "name"
    case Email => "email"
    case Role => "role"
    case JoinedDate => "joinedDate"
    case IsActive => "isActive"
    case Title => "title"
    case Description => "description"
    case Status => "status"
    case CreatedAt => "createdAt"
    case Count => "count"
    case RequiredFields => "requiredFields"
    case SubmittedAt => "submittedAt"
    case Uptime => "uptime"
    case Service => "service"
    case AvailableEndpoints => "availableEndpoints"
  }

  datatype Value =
    | Null
    | Bool(b: bool)
    | Number(n: real)
    | Str(s: string)
    | Arr(items: seq<Value>)
    | Obj(members: map<Key, Value>)

  /** The member names of `v`; a value that is not an object has none. */
  function Keys(v: Value): set<Key>
  {
    if v.Obj? then v.members.Keys else {}
  }

  /** `v[key]`; `None` stands for `undefined`. */
  function Field(v: Value, key: Key): (r: Option<Value>)
    ensures r.None? <==> key !in Keys(v)
    ensures r.Some? ==> v.Obj? && v.members[key] == r.value
  {
    if v.Obj? && key in v.members then Some(v.members[key]) else None
  }

  /** `key in v` for an object `v`. */
  predicate HasKey(v: Value, key: Key)
  {
    key in Keys(v)
  }
}
