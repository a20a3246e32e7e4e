/**
 * The jsoncpp value tree the meeting protocol packs its messages into.
 *
 * Object keys are the fixed member names the codec writes (one constructor
 * each, spelled as on the wire where Dafny allows it; `KeyText` gives the
 * exact text) plus `UserKey`, the user ids that key a role-binding object.
 * Only the jsoncpp behaviour the codec relies on is modelled: reading a
 * missing member through the const `operator[]` gives null, the `as*`
 * conversions turn null into "", false and 0, iterating a non-container
 * visits nothing, and appending to a null value makes it an array.
 */
module Json {

  datatype Key =
    | param_ | options_
    | displayName | meetingId | sceneCode | tag | password | extraData
    | roleBinds | roleTypes | roleType | maxCount | userList | userId
    | controls | attendeeOff | type_
    | noAudio | noVideo | noChat | noInvite | noScreenShare | noView | noWhiteboard
    | noRename | noSip | noMuteAllVideo | noMuteAllAudio | showMemberTag
    | showMeetingRemainingTip | audioAINSEnabled | noCloudRecord
    | defaultWindowMode | meetingIdDisplayOption | joinTimeout
    | chatroomConfig | enableFileMessage | enableImageMessage
    | fullMoreMenuItem | fullToolbarMenuItem
    | item_guid | item_id | item_title | item_image | item_title2 | item_image2
    | item_visibility | item_checkedIndex
    | finish | status_ | code_
    | isHost | isLocked | duration | shortMeetingId | sipId | meetingUniqueId | subject
    | hostUserId | scheduleStartTime | scheduleEndTime | startTime
    | meetingCreatorId | meetingCreatorName | userName
    | MenuItems
    | starttime | endtime | meetingSubject | AttendeeAudioOff | cloudRecordOnSpaced
    | meetingStatus | createTime | updateTime | enableLive | liveWebAccessControlLevel | liveUrl
    | scene | MeetingItems | MeetingStatus | meetingUniqueId_
    | subscribe | accountIdList
    | UserKey(id: string)

  /** The member name as it appears in the JSON text. */
  function KeyText(k: Key): string
  {
    match k
    case type_ => "type"
    case cloudRecordOnSpaced => "cloudRecordOn "
    case UserKey(id) => id
    case param_ => "param_"
    case options_ => "options_"
    case displayName => "displayName"
    case meetingId => "meetingId"
    case sceneCode => "sceneCode"
    case tag => "tag"
    case password => "password"
    case extraData => "extraData"
    case roleBinds => "roleBinds"
    case roleTypes => "roleTypes"
    case roleType => "roleType"
    case maxCount => "maxCount"
    case userList => "userList"
    case userId => "userId"
    case controls => "controls"
    case attendeeOff => "attendeeOff"
    case noAudio => "noAudio"
    case noVideo => "noVideo"
    case noChat => "noChat"
    case noInvite => "noInvite"
    case noScreenShare => "noScreenShare"
    case noView => "noView"
    case noWhiteboard => "noWhiteboard"
    case noRename => "noRename"
    case noSip => "noSip"
    case noMuteAllVideo => "noMuteAllVideo"
    case noMuteAllAudio => "noMuteAllAudio"
    case showMemberTag => "showMemberTag"
    case showMeetingRemainingTip => "showMeetingRemainingTip"
    case audioAINSEnabled => "audioAINSEnabled"
    case noCloudRecord => "noCloudRecord"
    case defaultWindowMode => "defaultWindowMode"
    case meetingIdDisplayOption => "meetingIdDisplayOption"
    case joinTimeout => "joinTimeout"
    case chatroomConfig => "chatroomConfig"
    case enableFileMessage => "enableFileMessage"
    case enableImageMessage => "enableImageMessage"
    case fullMoreMenuItem => "fullMoreMenuItem"
    case fullToolbarMenuItem => "fullToolbarMenuItem"
    case item_guid => "item_guid"
    case item_id => "item_id"
    case item_title => "item_title"
    case item_image => "item_image"
    case item_title2 => "item_title2"
    case item_image2 => "item_image2"
    case item_visibility => "item_visibility"
    case item_checkedIndex => "item_checkedIndex"
    case finish => "finish"
    case status_ => "status_"
    case code_ => "code_"
    case isHost => "isHost"
    case isLocked => "isLocked"
    case duration => "duration"
    case shortMeetingId => "shortMeetingId"
    case sipId => "sipId"
    case meetingUniqueId => "meetingUniqueId"
    case subject => "subject"
    case hostUserId => "hostUserId"
    case scheduleStartTime => "scheduleStartTime"
    case scheduleEndTime => "scheduleEndTime"
    case startTime => "startTime"
    case meetingCreatorId => "meetingCreatorId"
    case meetingCreatorName => "meetingCreatorName"
    case userName => "userName"
    case MenuItems => "MenuItems"
    case starttime => "starttime"
    case endtime => "endtime"
    case meetingSubject => "meetingSubject"
    case AttendeeAudioOff => "AttendeeAudioOff"
    case meetingStatus => "meetingStatus"
    case createTime => "createTime"
    case updateTime => "updateTime"
    case enableLive => "enableLive"
    case liveWebAccessControlLevel => "liveWebAccessControlLevel"
    case liveUrl => "liveUrl"
    case scene => "scene"
    case MeetingItems => "MeetingItems"
    case MeetingStatus => "MeetingStatus"
    case meetingUniqueId_ => "meetingUniqueId_"
    case subscribe => "subscribe"
    case accountIdList => "accountIdList"
  }

  /** A jsoncpp value; 32- and 64-bit integers are both `Int`. */
  datatype Value =
    | Null
    | Bool(b: bool)
    | Int(i: int)
    | Str(s: string)
    | Arr(elems: seq<Value>)
    | Obj(fields: map<Key, Value>)

  /** The const `operator[]`: a missing member reads as null. */
  function Member(v: Value, k: Key): Value
  {
    if v.Obj? && k in v.fields then v.fields[k] else Null
  }

  predicate IsMember(v: Value, k: Key)
  {
    v.Obj? && k in v.fields
  }

  /** `getMemberNames()`: the keys of an object, none for null. */
  function MemberNames(v: Value): set<Key>
  {
    if v.Obj? then v.fields.Keys else {}
  }

  /** The values a range-for visits: the elements of an array, nothing for null or a scalar. */
  function Elements(v: Value): seq<Value>
  {
    if v.Arr? then v.elems else []
  }

  /**
   * A value that started out null and received one `append` per element:
   * it stays null when nothing was appended.
   */
  function Appended(vs: seq<Value>): (r: Value)
    ensures Elements(r) == vs
    ensures vs == [] <==> r == Null
  {
    if vs == [] then Null else Arr(vs)
  }

  /** Decimal text of an integer, as `asString` renders numbers. */
  function DecimalText(i: int): string
    decreases if i < 0 then 1 - i else i
  {
    if i < 0 then "-" + DecimalText(-i)
    else if i < 10 then [['0','1','2','3','4','5','6','7','8','9'][i]]
    else DecimalText(i / 10) + DecimalText(i % 10)
  }

  function AsString(v: Value): string
  {
    if v.Str? then v.s
    else if v.Bool? then (if v.b then "true" else "false")
    else if v.Int? then DecimalText(v.i)
    else ""
  }

  function AsBool(v: Value): bool
  {
    if v.Bool? then v.b else if v.Int? then v.i != 0 else false
  }

  /** `asInt` and `asInt64`. */
  function AsInt(v: Value): int
  {
    if v.Int? then v.i else if v.Bool? && v.b then 1 else 0
  }

  /** `asUInt`; jsoncpp throws on a negative number, which reads as 0 here. */
  function AsUInt(v: Value): nat
  {
    if v.Int? && v.i >= 0 then v.i else if v.Bool? && v.b then 1 else 0
  }

  /** Applies `f` to every element, keeping the order. */
  function MapSeq<A, B>(xs: seq<A>, f: A -> B): (r: seq<B>)
    ensures |r| == |xs|
    ensures forall i :: 0 <= i < |xs| ==> r[i] == f(xs[i])
  {
    seq(|xs|, i requires 0 <= i < |xs| => f(xs[i]))
  }

  /** Reading back what was written element by element restores the sequence. */
  lemma MapSeqInverse<A, B>(xs: seq<A>, write: A -> B, read: B -> A)
    requires forall x | x in xs :: read(write(x)) == x
    ensures MapSeq(MapSeq(xs, write), read) == xs
  {
    var r := MapSeq(MapSeq(xs, write), read);
    assert forall i | 0 <= i < |xs| :: r[i] == xs[i] by {
      forall i | 0 <= i < |xs| ensures r[i] == xs[i] {
        assert xs[i] in xs;
      }
    }
  }

  /** The conversions of a missing member give jsoncpp's null defaults. */
  lemma MissingMemberDefaults(v: Value, k: Key)
    requires !IsMember(v, k)
    ensures AsString(Member(v, k)) == "" && !AsBool(Member(v, k))
    ensures AsInt(Member(v, k)) == 0 && AsUInt(Member(v, k)) == 0
    ensures Elements(Member(v, k)) == [] && MemberNames(Member(v, k)) == {}
  {
  }

  /** An object's members after a write that only happens when `cond` holds. */
  function PutIf(fields: map<Key, Value>, cond: bool, k: Key, v: Value): (r: map<Key, Value>)
    ensures r.Keys == if cond then fields.Keys + {k} else fields.Keys
  {
    if cond then fields[k := v] else fields
  }

  /** Members written later (`extra`) hide earlier ones; the rest stay as they were. */
  lemma MergeMembers(fields: map<Key, Value>, extra: map<Key, Value>)
    ensures forall j | j !in extra :: Member(Obj(fields + extra), j) == Member(Obj(fields), j)
    ensures forall j | j in extra :: Member(Obj(fields + extra), j) == extra[j]
    ensures forall j :: IsMember(Obj(fields + extra), j) <==> j in fields || j in extra
  {
  }
}
