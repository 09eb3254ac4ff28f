/** The WebSocket wire protocol: the closed union of eight messages, each a
    JSON object whose string `type` field selects the variant and whose other
    fields carry that variant's payload. */
module SocketMessage {
  import opened Wrappers
  import opened Json

  /** A participant in a room, as listed by `list_of_users`. */
  datatype User = User(userId: string, username: string, isTyping: bool)

  /** The job announced by `room_new_job`. */
  datatype Job = Job(
    id: string,
    eventType: string,
    enqueueTime: Int64,
    width: Int64,
    height: Int64,
    username: string)

  datatype Status = Unqueue | Running | Completed

  /** An inline partial render. */
  datatype Img = Img(data: string)

  datatype JobProgressData = JobProgressData(
    currentStatus: Status,
    percentageComplete: Int64,
    imgs: Option<seq<Img>>)

  datatype Message =
    | SubscribeToUser(jwt: string)
    | UserSuccess(userId: string)
    | ListOfUsers(roomId: string, users: seq<User>)
    | Ping
    | RoomNewJob(roomId: string, job: Job)
    | JobSuccess(jobId: string)
    | JobProgress(data: JobProgressData, jobId: string, roomId: string)
    | SubscribeToJob(jobId: string, roomId: string)

  /** The discriminator carried in the `type` field. */
  datatype MessageType =
    | SubscribeToUserType
    | UserSuccessType
    | ListOfUsersType
    | PingType
    | RoomNewJobType
    | JobSuccessType
    | JobProgressType
    | SubscribeToJobType

  /** The eight wire tags. */
  const Tags: set<string> := {
    "subscribe_to_user", "user_success", "list_of_users", "ping",
    "room_new_job", "job_success", "job_progress", "subscribe_to_job"
  }

  /** Every key a message object may carry. */
  const CodingKeys: set<string> := {
    "type", "jwt", "user_id", "room_id", "users", "job", "data", "job_id"
  }

  function TypeOf(m: Message): MessageType {
    match m
    case SubscribeToUser(_) => SubscribeToUserType
    case UserSuccess(_) => UserSuccessType
    case ListOfUsers(_, _) => ListOfUsersType
    case Ping => PingType
    case RoomNewJob(_, _) => RoomNewJobType
    case JobSuccess(_) => JobSuccessType
    case JobProgress(_, _, _) => JobProgressType
    case SubscribeToJob(_, _) => SubscribeToJobType
  }

  function RawValue(t: MessageType): (tag: string)
    ensures tag in Tags
  {
    match t
    case SubscribeToUserType => "subscribe_to_user"
    case UserSuccessType => "user_success"
    case ListOfUsersType => "list_of_users"
    case PingType => "ping"
    case RoomNewJobType => "room_new_job"
    case JobSuccessType => "job_success"
    case JobProgressType => "job_progress"
    case SubscribeToJobType => "subscribe_to_job"
  }

  /** `MessageType(rawValue:)`: defined exactly on the eight tags, and the
      inverse of `RawValue` there. */
  function FromRawValue(tag: string): (t: Option<MessageType>)
    ensures t.Some? <==> tag in Tags
    ensures t.Some? ==> RawValue(t.value) == tag
  {
    match tag
    case "subscribe_to_user" => Some(SubscribeToUserType)
    case "user_success" => Some(UserSuccessType)
    case "list_of_users" => Some(ListOfUsersType)
    case "ping" => Some(PingType)
    case "room_new_job" => Some(RoomNewJobType)
    case "job_success" => Some(JobSuccessType)
    case "job_progress" => Some(JobProgressType)
    case "subscribe_to_job" => Some(SubscribeToJobType)
    case _ => None
  }

  /** The keys, besides `type`, that each variant writes and requires. */
  function FieldKeys(t: MessageType): (keys: set<string>)
    ensures keys <= CodingKeys - {"type"}
  {
    match t
    case SubscribeToUserType => {"jwt"}
    case UserSuccessType => {"user_id"}
    case ListOfUsersType => {"room_id", "users"}
    case PingType => {}
    case RoomNewJobType => {"room_id", "job"}
    case JobSuccessType => {"job_id"}
    case JobProgressType => {"data", "job_id", "room_id"}
    case SubscribeToJobType => {"job_id", "room_id"}
  }

  /** Distinct variants are told apart by distinct tags. */
  lemma {:induction false} RawValueInjective(t1: MessageType, t2: MessageType)
    ensures RawValue(t1) == RawValue(t2) <==> t1 == t2
  {
    if RawValue(t1) == RawValue(t2) {
      assert FromRawValue(RawValue(t1)) == Some(t1) by { RawValueRoundTrip(t1); }
      assert FromRawValue(RawValue(t2)) == Some(t2) by { RawValueRoundTrip(t2); }
    }
  }

  lemma RawValueRoundTrip(t: MessageType)
    ensures FromRawValue(RawValue(t)) == Some(t)
  {
    match t
    case SubscribeToUserType =>
    case UserSuccessType =>
    case ListOfUsersType =>
    case PingType =>
    case RoomNewJobType =>
    case JobSuccessType =>
    case JobProgressType =>
    case SubscribeToJobType =>
  }

  // ----- Encoding (the synthesised `Encodable` of the nested structs and the
  // hand-written `encode(to:)` of the message) -----

  function EncodeUser(u: User): JValue {
    JObject(map[
      "user_id" := JString(u.userId),
      "username" := JString(u.username),
      "isTyping" := JBool(u.isTyping)])
  }

  function EncodeUsers(us: seq<User>): (vs: seq<JValue>)
    ensures |vs| == |us|
  {
    if us == [] then [] else [EncodeUser(us[0])] + EncodeUsers(us[1..])
  }

  /** The six properties a job is decoded from. */
  const JobKeys: set<string> := {"id", "event_type", "enqueue_time", "width", "height", "username"}

  function EncodeJob(j: Job): (v: JValue)
    ensures v.JObject? && v.fields.Keys == JobKeys
  {
    JObject(map[
      "id" := JString(j.id),
      "event_type" := JString(j.eventType),
      "enqueue_time" := JInt(j.enqueueTime),
      "width" := JInt(j.width),
      "height" := JInt(j.height),
      "username" := JString(j.username)])
  }

  function StatusRawValue(s: Status): string {
    match s
    case Unqueue => "unqueue"
    case Running => "running"
    case Completed => "completed"
  }

  function EncodeImg(img: Img): JValue {
    JObject(map["data" := JString(img.data)])
  }

  function EncodeImgs(imgs: seq<Img>): (vs: seq<JValue>)
    ensures |vs| == |imgs|
  {
    if imgs == [] then [] else [EncodeImg(imgs[0])] + EncodeImgs(imgs[1..])
  }

  /** An absent `imgs` is omitted from the object (`encodeIfPresent`). */
  function EncodeProgress(d: JobProgressData): (v: JValue)
    ensures v.JObject?
    ensures "imgs" in v.fields <==> d.imgs.Some?
    ensures v.fields.Keys - {"imgs"} == {"current_status", "percentage_complete"}
  {
    var fields := map[
      "current_status" := JString(StatusRawValue(d.currentStatus)),
      "percentage_complete" := JInt(d.percentageComplete)];
    match d.imgs
    case None => JObject(fields)
    case Some(imgs) => JObject(fields["imgs" := JArray(EncodeImgs(imgs))])
  }

  /** Writes the variant's tag under `type` plus exactly that variant's
      fields; `ping` writes only its tag. */
  function Encode(m: Message): (v: JValue)
    ensures v.JObject?
    ensures v.fields.Keys == {"type"} + FieldKeys(TypeOf(m))
    ensures v.fields["type"] == JString(RawValue(TypeOf(m)))
  {
    var tag := JString(RawValue(TypeOf(m)));
    match m
    case SubscribeToUser(jwt) =>
      JObject(map["type" := tag, "jwt" := JString(jwt)])
    case UserSuccess(userId) =>
      JObject(map["type" := tag, "user_id" := JString(userId)])
    case ListOfUsers(roomId, users) =>
      JObject(map["type" := tag, "room_id" := JString(roomId), "users" := JArray(EncodeUsers(users))])
    case Ping =>
      JObject(map["type" := tag])
    case RoomNewJob(roomId, job) =>
      JObject(map["type" := tag, "room_id" := JString(roomId), "job" := EncodeJob(job)])
    case JobSuccess(jobId) =>
      JObject(map["type" := tag, "job_id" := JString(jobId)])
    case JobProgress(data, jobId, roomId) =>
      JObject(map["type" := tag, "data" := EncodeProgress(data), "job_id" := JString(jobId), "room_id" := JString(roomId)])
    case SubscribeToJob(jobId, roomId) =>
      JObject(map["type" := tag, "job_id" := JString(jobId), "room_id" := JString(roomId)])
  }

  // ----- Decoding (the synthesised `Decodable` of the nested structs, which
  // reads properties in declaration order, and the hand-written
  // `init(from:)` of the message) -----

  /** A user decodes exactly when its three properties are present with the
      right JSON kinds, and each property comes from its own key. */
  function DecodeUser(v: JValue, path: Path): (r: Decoded<User>)
    ensures r.Success? <==>
      && v.JObject?
      && "user_id" in v.fields && v.fields["user_id"].JString?
      && "username" in v.fields && v.fields["username"].JString?
      && "isTyping" in v.fields && v.fields["isTyping"].JBool?
    ensures r.Success? ==>
      && v.fields["user_id"] == JString(r.value.userId)
      && v.fields["username"] == JString(r.value.username)
      && v.fields["isTyping"] == JBool(r.value.isTyping)
  {
    var o :- AsObject(v, path);
    var userId :- StringField(o, "user_id", path);
    var username :- StringField(o, "username", path);
    var isTyping :- BoolField(o, "isTyping", path);
    Success(User(userId, username, isTyping))
  }

  /** Decodes `vs` as the array elements starting at position `offset`:
      element `i` is decoded from array element `i` at its own index in the
      coding path, the list decodes exactly when every element does, and the
      first element that fails decides the error. */
  function DecodeUserList(vs: seq<JValue>, path: Path, offset: nat): (r: Decoded<seq<User>>)
    ensures r.Success? <==> forall i :: 0 <= i < |vs| ==> DecodeUser(vs[i], path + [Index(offset + i)]).Success?
    ensures r.Success? ==>
      && |r.value| == |vs|
      && forall i :: 0 <= i < |vs| ==> DecodeUser(vs[i], path + [Index(offset + i)]) == Success(r.value[i])
    ensures r.Failure? ==> exists i ::
      && 0 <= i < |vs|
      && (forall k :: 0 <= k < i ==> DecodeUser(vs[k], path + [Index(offset + k)]).Success?)
      && DecodeUser(vs[i], path + [Index(offset + i)]) == Failure(r.error)
    decreases |vs|
  {
    if vs == [] then Success([])
    else
      var u :- DecodeUser(vs[0], path + [Index(offset)]);
      var rest :- DecodeUserList(vs[1..], path, offset + 1);
      Success([u] + rest)
  }

  /** A JSON number that fits in Swift's `Int`. */
  predicate IsInt64(v: JValue) {
    v.JInt? && InInt64(v.i)
  }

  /** A job decodes exactly when its six properties are present with the
      right JSON kinds, and each property comes from its own key. */
  function DecodeJob(v: JValue, path: Path): (r: Decoded<Job>)
    ensures r.Success? <==>
      && v.JObject?
      && "id" in v.fields && v.fields["id"].JString?
      && "event_type" in v.fields && v.fields["event_type"].JString?
      && "enqueue_time" in v.fields && IsInt64(v.fields["enqueue_time"])
      && "width" in v.fields && IsInt64(v.fields["width"])
      && "height" in v.fields && IsInt64(v.fields["height"])
      && "username" in v.fields && v.fields["username"].JString?
    ensures r.Success? ==>
      && v.fields["id"] == JString(r.value.id)
      && v.fields["event_type"] == JString(r.value.eventType)
      && v.fields["enqueue_time"] == JInt(r.value.enqueueTime)
      && v.fields["width"] == JInt(r.value.width)
      && v.fields["height"] == JInt(r.value.height)
      && v.fields["username"] == JString(r.value.username)
  {
    var o :- AsObject(v, path);
    var id :- StringField(o, "id", path);
    var eventType :- StringField(o, "event_type", path);
    var enqueueTime :- IntField(o, "enqueue_time", path);
    var width :- IntField(o, "width", path);
    var height :- IntField(o, "height", path);
    var username :- StringField(o, "username", path);
    Success(Job(id, eventType, enqueueTime, width, height, username))
  }

  /** `Status(rawValue:)` failing is reported as corrupted data. */
  function DecodeStatus(o: map<string, JValue>, path: Path): Decoded<Status> {
    var raw :- StringField(o, "current_status", path);
    match raw
    case "unqueue" => Success(Unqueue)
    case "running" => Success(Running)
    case "completed" => Success(Completed)
    case _ => Failure(DataCorrupted(path + [Key("current_status")]))
  }

  /** An image decodes exactly when `data` is a string, and carries it. */
  function DecodeImg(v: JValue, path: Path): (r: Decoded<Img>)
    ensures r.Success? <==> v.JObject? && "data" in v.fields && v.fields["data"].JString?
    ensures r.Success? ==> v.fields["data"] == JString(r.value.data)
  {
    var o :- AsObject(v, path);
    var data :- StringField(o, "data", path);
    Success(Img(data))
  }

  /** As `DecodeUserList`, for the images of a progress update. */
  function DecodeImgList(vs: seq<JValue>, path: Path, offset: nat): (r: Decoded<seq<Img>>)
    ensures r.Success? <==> forall i :: 0 <= i < |vs| ==> DecodeImg(vs[i], path + [Index(offset + i)]).Success?
    ensures r.Success? ==>
      && |r.value| == |vs|
      && forall i :: 0 <= i < |vs| ==> DecodeImg(vs[i], path + [Index(offset + i)]) == Success(r.value[i])
    ensures r.Failure? ==> exists i ::
      && 0 <= i < |vs|
      && (forall k :: 0 <= k < i ==> DecodeImg(vs[k], path + [Index(offset + k)]).Success?)
      && DecodeImg(vs[i], path + [Index(offset + i)]) == Failure(r.error)
    decreases |vs|
  {
    if vs == [] then Success([])
    else
      var img :- DecodeImg(vs[0], path + [Index(offset)]);
      var rest :- DecodeImgList(vs[1..], path, offset + 1);
      Success([img] + rest)
  }

  /** Progress data: the status and percentage come from their keys, and
      `imgs` is read with `decodeIfPresent`, so an absent key and an
      explicit `null` both give nil. */
  function DecodeProgress(v: JValue, path: Path): (r: Decoded<JobProgressData>)
    ensures r.Success? ==>
      && v.JObject?
      && "current_status" in v.fields
      && v.fields["current_status"] == JString(StatusRawValue(r.value.currentStatus))
      && "percentage_complete" in v.fields
      && v.fields["percentage_complete"] == JInt(r.value.percentageComplete)
    ensures r.Success? <==>
      && v.JObject?
      && "current_status" in v.fields && v.fields["current_status"].JString?
      && v.fields["current_status"].s in {"unqueue", "running", "completed"}
      && "percentage_complete" in v.fields && IsInt64(v.fields["percentage_complete"])
      && ("imgs" in v.fields && !v.fields["imgs"].JNull? ==>
            && v.fields["imgs"].JArray?
            && forall i :: 0 <= i < |v.fields["imgs"].items| ==>
                 DecodeImg(v.fields["imgs"].items[i], path + [Key("imgs")] + [Index(i)]).Success?)
    ensures r.Success? ==> (r.value.imgs.None? <==> "imgs" !in v.fields || v.fields["imgs"].JNull?)
    ensures r.Success? && r.value.imgs.Some? ==>
      && v.fields["imgs"].JArray?
      && |r.value.imgs.value| == |v.fields["imgs"].items|
      && forall i :: 0 <= i < |r.value.imgs.value| ==>
           DecodeImg(v.fields["imgs"].items[i], path + [Key("imgs")] + [Index(i)]) == Success(r.value.imgs.value[i])
    ensures v.JObject? && "current_status" in v.fields && v.fields["current_status"].JString?
      && v.fields["current_status"].s !in {"unqueue", "running", "completed"}
      ==> r == Failure(DataCorrupted(path + [Key("current_status")]))
  {
    var o :- AsObject(v, path);
    var status :- DecodeStatus(o, path);
    var percentage :- IntField(o, "percentage_complete", path);
    match OptionalField(o, "imgs")
    case None => Success(JobProgressData(status, percentage, None))
    case Some(imgsValue) =>
      var imgsPath := path + [Key("imgs")];
      var items :- AsArray(imgsValue, imgsPath);
      var imgs :- DecodeImgList(items, imgsPath, 0);
      Success(JobProgressData(status, percentage, Some(imgs)))
  }

  /** `container.decode(MessageType.self, forKey: .type)`. */
  function DecodeType(o: map<string, JValue>): (r: Decoded<MessageType>)
    ensures "type" !in o ==> r == Failure(KeyNotFound("type", []))
    ensures "type" in o && !o["type"].JString? ==> r == Failure(WrongKind(o["type"], [Key("type")]))
    ensures "type" in o && o["type"].JString? ==> r.Success? == (o["type"].s in Tags)
    ensures r.Success? ==> "type" in o && o["type"] == JString(RawValue(r.value))
  {
    assert [] + [Key("type")] == [Key("type")];
    var raw :- StringField(o, "type", []);
    match FromRawValue(raw)
    case None => Failure(DataCorrupted([Key("type")]))
    case Some(t) => Success(t)
  }

  /** The per-variant arm of `init(from:)`, reading fields in the order the Swift library does. */
  function DecodeFields(t: MessageType, o: map<string, JValue>): (r: Decoded<Message>)
    ensures r.Success? ==> TypeOf(r.value) == t && FieldKeys(t) <= o.Keys
    ensures r.Success? && r.value.SubscribeToUser? ==> o["jwt"] == JString(r.value.jwt)
    ensures r.Success? && r.value.UserSuccess? ==> o["user_id"] == JString(r.value.userId)
    ensures r.Success? && (r.value.ListOfUsers? || r.value.RoomNewJob? || r.value.JobProgress? || r.value.SubscribeToJob?)
      ==> o["room_id"] == JString(r.value.roomId)
    ensures r.Success? && (r.value.JobSuccess? || r.value.JobProgress? || r.value.SubscribeToJob?)
      ==> o["job_id"] == JString(r.value.jobId)
    ensures r.Success? && r.value.ListOfUsers? ==>
      o["users"].JArray? && DecodeUserList(o["users"].items, [Key("users")], 0) == Success(r.value.users)
    ensures r.Success? && r.value.RoomNewJob? ==> DecodeJob(o["job"], [Key("job")]) == Success(r.value.job)
    ensures r.Success? && r.value.JobProgress? ==> DecodeProgress(o["data"], [Key("data")]) == Success(r.value.data)
    ensures t == SubscribeToUserType && "jwt" in o && o["jwt"].JString? ==> r.Success?
    ensures t == UserSuccessType && "user_id" in o && o["user_id"].JString? ==> r.Success?
    ensures t == ListOfUsersType && "room_id" in o && o["room_id"].JString?
      && "users" in o && o["users"].JArray? && DecodeUserList(o["users"].items, [Key("users")], 0).Success?
      ==> r.Success?
    ensures t == PingType ==> r.Success?
    ensures t == RoomNewJobType && "room_id" in o && o["room_id"].JString?
      && "job" in o && DecodeJob(o["job"], [Key("job")]).Success?
      ==> r.Success?
    ensures t == JobSuccessType && "job_id" in o && o["job_id"].JString? ==> r.Success?
    ensures t == JobProgressType && "data" in o && DecodeProgress(o["data"], [Key("data")]).Success?
      && "job_id" in o && o["job_id"].JString? && "room_id" in o && o["room_id"].JString?
      ==> r.Success?
    ensures t == SubscribeToJobType && "job_id" in o && o["job_id"].JString?
      && "room_id" in o && o["room_id"].JString?
      ==> r.Success?
  {
    match t
    case SubscribeToUserType =>
      var jwt :- StringField(o, "jwt", []);
      Success(SubscribeToUser(jwt))
    case UserSuccessType =>
      var userId :- StringField(o, "user_id", []);
      Success(UserSuccess(userId))
    case ListOfUsersType =>
      var roomId :- StringField(o, "room_id", []);
      var usersValue :- Field(o, "users", []);
      var items :- AsArray(usersValue, [Key("users")]);
      var users :- DecodeUserList(items, [Key("users")], 0);
      Success(ListOfUsers(roomId, users))
    case PingType =>
      Success(Ping)
    case RoomNewJobType =>
      var roomId :- StringField(o, "room_id", []);
      var jobValue :- Field(o, "job", []);
      var job :- DecodeJob(jobValue, [Key("job")]);
      Success(RoomNewJob(roomId, job))
    case JobSuccessType =>
      var jobId :- StringField(o, "job_id", []);
      Success(JobSuccess(jobId))
    case JobProgressType =>
      var dataValue :- Field(o, "data", []);
      var data :- DecodeProgress(dataValue, [Key("data")]);
      var jobId :- StringField(o, "job_id", []);
      var roomId :- StringField(o, "room_id", []);
      Success(JobProgress(data, jobId, roomId))
    case SubscribeToJobType =>
      var jobId :- StringField(o, "job_id", []);
      var roomId :- StringField(o, "room_id", []);
      Success(SubscribeToJob(jobId, roomId))
  }

  /** Decoding succeeds only on an object whose `type` is one of the eight
      tags and which carries every field that tag requires; it fails with
      Foundation's error when the value is not an object, when `type` is
      missing or not a string, and when `type` is not a tag. An object with
      a known tag decodes exactly as that tag's arm decodes it. */
  function Decode(v: JValue): (r: Decoded<Message>)
    ensures r.Success? ==>
      && v.JObject?
      && "type" in v.fields
      && v.fields["type"] == JString(RawValue(TypeOf(r.value)))
      && FieldKeys(TypeOf(r.value)) <= v.fields.Keys
    ensures v.JNull? ==> r == Failure(ValueNotFound([]))
    ensures !v.JObject? && !v.JNull? ==> r == Failure(TypeMismatch([]))
    ensures v.JObject? && "type" !in v.fields ==> r == Failure(KeyNotFound("type", []))
    ensures v.JObject? && "type" in v.fields && v.fields["type"].JString? && v.fields["type"].s !in Tags
      ==> r == Failure(DataCorrupted([Key("type")]))
    ensures v.JObject? && "type" in v.fields && !v.fields["type"].JString?
      ==> r == Failure(WrongKind(v.fields["type"], [Key("type")]))
    ensures v.JObject? && "type" in v.fields && v.fields["type"].JString? && v.fields["type"].s in Tags
      ==> r == DecodeFields(FromRawValue(v.fields["type"].s).value, v.fields)
  {
    var o :- AsObject(v, []);
    var t :- DecodeType(o);
    DecodeFields(t, o)
  }

  // ----- Round trip -----

  lemma {:induction false} UserListRoundTrip(us: seq<User>, path: Path, offset: nat)
    ensures DecodeUserList(EncodeUsers(us), path, offset) == Success(us)
    decreases |us|
  {
    if us != [] {
      var vs := EncodeUsers(us);
      assert vs[0] == EncodeUser(us[0]) && vs[1..] == EncodeUsers(us[1..]);
      assert DecodeUser(vs[0], path + [Index(offset)]) == Success(us[0]);
      UserListRoundTrip(us[1..], path, offset + 1);
      assert [us[0]] + us[1..] == us;
    }
  }

  lemma {:induction false} ImgListRoundTrip(imgs: seq<Img>, path: Path, offset: nat)
    ensures DecodeImgList(EncodeImgs(imgs), path, offset) == Success(imgs)
    decreases |imgs|
  {
    if imgs != [] {
      var vs := EncodeImgs(imgs);
      assert vs[0] == EncodeImg(imgs[0]) && vs[1..] == EncodeImgs(imgs[1..]);
      assert DecodeImg(vs[0], path + [Index(offset)]) == Success(imgs[0]);
      ImgListRoundTrip(imgs[1..], path, offset + 1);
      assert [imgs[0]] + imgs[1..] == imgs;
    }
  }

  lemma ProgressRoundTrip(d: JobProgressData, path: Path)
    ensures DecodeProgress(EncodeProgress(d), path) == Success(d)
  {
    var o := EncodeProgress(d).fields;
    assert DecodeStatus(o, path) == Success(d.currentStatus) by {
      match d.currentStatus
      case Unqueue =>
      case Running =>
      case Completed =>
    }
    match d.imgs
    case None =>
    case Some(imgs) =>
      ImgListRoundTrip(imgs, path + [Key("imgs")], 0);
  }

  /** `decodeIfPresent`: progress data whose `imgs` is an explicit `null`
      decodes exactly as when the key is absent. */
  lemma NullImgsReadAsAbsent(d: JobProgressData, path: Path)
    requires d.imgs.None?
    ensures DecodeProgress(JObject(EncodeProgress(d).fields["imgs" := JNull]), path) == Success(d)
  {
    ProgressRoundTrip(d, path);
    var o := EncodeProgress(d).fields;
    var o' := o["imgs" := JNull];
    assert DecodeStatus(o', path) == DecodeStatus(o, path) by {
      assert Field(o', "current_status", path) == Field(o, "current_status", path);
    }
    assert IntField(o', "percentage_complete", path) == IntField(o, "percentage_complete", path);
  }

  /** Each variant's arm of the decoder reads back what the encoder wrote. */
  lemma {:induction false} FieldsRoundTrip(m: Message)
    ensures DecodeFields(TypeOf(m), Encode(m).fields) == Success(m)
  {
    match m
    case SubscribeToUser(_) =>
    case UserSuccess(_) =>
    case ListOfUsers(roomId, users) =>
      ListOfUsersRoundTrip(roomId, users);
    case Ping =>
    case RoomNewJob(roomId, job) =>
      RoomNewJobRoundTrip(roomId, job);
    case JobSuccess(_) =>
    case JobProgress(data, jobId, roomId) =>
      JobProgressRoundTrip(data, jobId, roomId);
    case SubscribeToJob(_, _) =>
  }

  lemma ListOfUsersRoundTrip(roomId: string, users: seq<User>)
    ensures DecodeFields(ListOfUsersType, Encode(ListOfUsers(roomId, users)).fields) == Success(ListOfUsers(roomId, users))
  {
    UserListRoundTrip(users, [Key("users")], 0);
  }

  lemma RoomNewJobRoundTrip(roomId: string, job: Job)
    ensures DecodeFields(RoomNewJobType, Encode(RoomNewJob(roomId, job)).fields) == Success(RoomNewJob(roomId, job))
  {
    assert DecodeJob(EncodeJob(job), [Key("job")]) == Success(job);
  }

  lemma JobProgressRoundTrip(data: JobProgressData, jobId: string, roomId: string)
    ensures DecodeFields(JobProgressType, Encode(JobProgress(data, jobId, roomId)).fields) == Success(JobProgress(data, jobId, roomId))
  {
    ProgressRoundTrip(data, [Key("data")]);
  }

  /** Decoding the encoding of any message yields that message. */
  lemma {:induction false} RoundTrip(m: Message)
    ensures Decode(Encode(m)) == Success(m)
  {
    var o := Encode(m).fields;
    RawValueRoundTrip(TypeOf(m));
    assert DecodeType(o) == Success(TypeOf(m));
    FieldsRoundTrip(m);
  }

  // ----- Unknown keys -----

  /** Two objects that agree on every key in `keys`, present or absent. */
  ghost predicate AgreeOn(o1: map<string, JValue>, o2: map<string, JValue>, keys: set<string>) {
    forall k :: k in keys ==> (k in o1 <==> k in o2) && (k in o1 ==> o1[k] == o2[k])
  }

  /** Adding keys outside `keys` keeps an object in agreement with itself on `keys`. */
  lemma AgreeOnExtended(o: map<string, JValue>, extra: map<string, JValue>, keys: set<string>)
    requires extra.Keys !! keys
    ensures AgreeOn(o + extra, o, keys)
  {
  }

  /** Each decoder arm reads only its own variant's keys. */
  lemma DecodeFieldsReadsOnlyItsKeys(t: MessageType, o1: map<string, JValue>, o2: map<string, JValue>)
    requires AgreeOn(o1, o2, FieldKeys(t))
    ensures DecodeFields(t, o1) == DecodeFields(t, o2)
  {
  }

  /** The message decoder reads only `type` and the coding keys: keys the
      client does not know, and keys of other variants, are ignored. */
  lemma DecodeReadsOnlyCodingKeys(o1: map<string, JValue>, o2: map<string, JValue>)
    requires AgreeOn(o1, o2, CodingKeys)
    ensures Decode(JObject(o1)) == Decode(JObject(o2))
  {
    assert Field(o1, "type", []) == Field(o2, "type", []);
    match DecodeType(o1)
    case Failure(_) =>
    case Success(t) =>
      DecodeFieldsReadsOnlyItsKeys(t, o1, o2);
  }

  /** An encoded message with extra keys the client does not know still
      decodes to that message. */
  lemma DecodeIgnoresUnknownKeys(m: Message, extra: map<string, JValue>)
    requires extra.Keys !! CodingKeys
    ensures Decode(JObject(Encode(m).fields + extra)) == Success(m)
  {
    AgreeOnExtended(Encode(m).fields, extra, CodingKeys);
    DecodeReadsOnlyCodingKeys(Encode(m).fields + extra, Encode(m).fields);
    RoundTrip(m);
  }

  /** A job object with more properties than the six the client reads still
      decodes to the same job. */
  lemma DecodeJobIgnoresUnknownKeys(j: Job, extra: map<string, JValue>, path: Path)
    requires extra.Keys !! JobKeys
    ensures DecodeJob(JObject(EncodeJob(j).fields + extra), path) == Success(j)
  {
  }

  /** The three properties progress data is decoded from. */
  const ProgressKeys: set<string> := {"current_status", "percentage_complete", "imgs"}

  /** Progress data with properties the client does not read still decodes
      to the same record. */
  lemma DecodeProgressIgnoresUnknownKeys(d: JobProgressData, extra: map<string, JValue>, path: Path)
    requires extra.Keys !! ProgressKeys
    ensures DecodeProgress(JObject(EncodeProgress(d).fields + extra), path) == Success(d)
  {
    var o := EncodeProgress(d).fields;
    AgreeOnExtended(o, extra, ProgressKeys);
    ProgressRoundTrip(d, path);
    assert DecodeStatus(o + extra, path) == DecodeStatus(o, path) by {
      assert Field(o + extra, "current_status", path) == Field(o, "current_status", path);
    }
    assert IntField(o + extra, "percentage_complete", path) == IntField(o, "percentage_complete", path);
    assert OptionalField(o + extra, "imgs") == OptionalField(o, "imgs");
  }

  /** A `room_new_job` whose job object and whose envelope both carry keys
      the client does not read decodes to the announced job. */
  lemma NewJobIgnoresUnknownKeys(roomId: string, j: Job, jobExtra: map<string, JValue>, extra: map<string, JValue>)
    requires jobExtra.Keys !! JobKeys && extra.Keys !! CodingKeys
    ensures Decode(JObject(Encode(RoomNewJob(roomId, j)).fields["job" := JObject(EncodeJob(j).fields + jobExtra)] + extra))
      == Success(RoomNewJob(roomId, j))
  {
    var o := Encode(RoomNewJob(roomId, j)).fields["job" := JObject(EncodeJob(j).fields + jobExtra)];
    AgreeOnExtended(o, extra, CodingKeys);
    DecodeReadsOnlyCodingKeys(o + extra, o);
    DecodeJobIgnoresUnknownKeys(j, jobExtra, [Key("job")]);
    RawValueRoundTrip(RoomNewJobType);
    assert DecodeType(o) == Success(RoomNewJobType);
  }
}
