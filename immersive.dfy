/** Messages that synchronise 3D entities: their transform and their lifecycle. */
module Immersive {
  import opened Wrappers
  import opened Values

  /** `SIMD3<Float>`. */
  datatype Vec3 = Vec3(x: Float, y: Float, z: Float)

  /** `simd_quatf`, by its underlying vector: imaginary part (x, y, z) and real part w. */
  datatype Quat = Quat(x: Float, y: Float, z: Float, w: Float)

  datatype EntityTransformMessage = EntityTransformMessage(
    windowId: string,
    messageId: string,
    entityId: string,
    position: Vec3,
    rotation: Quat,
    scale: Vec3)

  datatype EntityStateMessage = EntityStateMessage(
    windowId: string,
    messageId: string,
    entityId: string,
    isActive: bool,
    modelName: string)

  /** The initializer; `windowId` keeps its default "" and `messageId` is the fresh UUID string. */
  function NewEntityTransform(entityId: string, position: Vec3, rotation: Quat, scale: Vec3,
                              messageId: string): (m: EntityTransformMessage)
    ensures m.entityId == entityId && m.position == position
    ensures m.rotation == rotation && m.scale == scale
    ensures m.windowId == "" && m.messageId == messageId
  {
    EntityTransformMessage("", messageId, entityId, position, rotation, scale)
  }

  /** The initializer; `windowId` keeps its default "" and `messageId` is the fresh UUID string. */
  function NewEntityState(entityId: string, isActive: bool, modelName: string,
                          messageId: string): (m: EntityStateMessage)
    ensures m.entityId == entityId && m.isActive == isActive && m.modelName == modelName
    ensures m.windowId == "" && m.messageId == messageId
  {
    EntityStateMessage("", messageId, entityId, isActive, modelName)
  }

  function Vec3List(v: Vec3): Value {
    FloatList([v.x, v.y, v.z])
  }

  function QuatList(q: Quat): Value {
    FloatList([q.x, q.y, q.z, q.w])
  }

  /** The custom `encode(to:)`: vectors become fixed-length float lists in component order. */
  function EntityTransformPayload(m: EntityTransformMessage): (v: Value)
    ensures v.Object? && v.fields.Keys == {"windowId", "messageId", "entityId", "position", "rotation", "scale"}
    ensures v.fields["position"] == FloatList([m.position.x, m.position.y, m.position.z])
    ensures v.fields["rotation"] == FloatList([m.rotation.x, m.rotation.y, m.rotation.z, m.rotation.w])
    ensures v.fields["scale"] == FloatList([m.scale.x, m.scale.y, m.scale.z])
    ensures v.fields["entityId"] == Str(m.entityId)
  {
    Object(map[
      "windowId" := Str(m.windowId),
      "messageId" := Str(m.messageId),
      "entityId" := Str(m.entityId),
      "position" := Vec3List(m.position),
      "rotation" := QuatList(m.rotation),
      "scale" := Vec3List(m.scale)])
  }

  /** A float list of the given key, rejected unless it has exactly `count` elements. */
  function GetFixedFloats(f: map<string, Value>, key: string, count: nat): (r: Result<seq<Float>, DecodeError>)
    ensures r.Ok? ==> |r.value| == count && key in f && f[key] == FloatList(r.value)
    ensures GetFloats(f, key).Ok? && |GetFloats(f, key).value| != count ==> r == Err(WrongCount(key, count))
    ensures GetFloats(f, key).Err? ==> r == Err(GetFloats(f, key).error)
  {
    var fs :- GetFloats(f, key);
    if |fs| == count then Ok(fs) else Err(WrongCount(key, count))
  }

  /** The custom `init(from:)`: reads the six keys in order and checks each list's arity. */
  function DecodeEntityTransform(v: Value): (r: Result<EntityTransformMessage, DecodeError>)
    ensures r.Ok? ==> v.Object? && AgreesWith(v.fields, EntityTransformPayload(r.value).fields)
  {
    if !v.Object? then Err(NotAnObject)
    else
      var f := v.fields;
      var windowId :- GetString(f, "windowId");
      var messageId :- GetString(f, "messageId");
      var entityId :- GetString(f, "entityId");
      var pos :- GetFixedFloats(f, "position", 3);
      var rot :- GetFixedFloats(f, "rotation", 4);
      var sc :- GetFixedFloats(f, "scale", 3);
      assert pos == [pos[0], pos[1], pos[2]] && sc == [sc[0], sc[1], sc[2]];
      assert rot == [rot[0], rot[1], rot[2], rot[3]];
      Ok(EntityTransformMessage(windowId, messageId, entityId,
                                Vec3(pos[0], pos[1], pos[2]),
                                Quat(rot[0], rot[1], rot[2], rot[3]),
                                Vec3(sc[0], sc[1], sc[2])))
  }

  /** Decoding what `encode` wrote recovers every field and every vector component. */
  lemma EntityTransformRoundTrip(m: EntityTransformMessage)
    ensures DecodeEntityTransform(EntityTransformPayload(m)) == Ok(m)
  {
    var f := EntityTransformPayload(m).fields;
    GetFloatsOfList(f, "position", [m.position.x, m.position.y, m.position.z]);
    GetFloatsOfList(f, "rotation", [m.rotation.x, m.rotation.y, m.rotation.z, m.rotation.w]);
    GetFloatsOfList(f, "scale", [m.scale.x, m.scale.y, m.scale.z]);
  }

  /** A position list that is not of length 3 is rejected, once the keys before it decode. */
  lemma PositionArityChecked(f: map<string, Value>, fs: seq<Float>)
    requires GetString(f, "windowId").Ok? && GetString(f, "messageId").Ok? && GetString(f, "entityId").Ok?
    requires "position" in f && f["position"] == FloatList(fs) && |fs| != 3
    ensures DecodeEntityTransform(Object(f)) == Err(WrongCount("position", 3))
  {
  }

  /** A rotation list that is not of length 4 is rejected, once the keys before it decode. */
  lemma RotationArityChecked(f: map<string, Value>, pos: seq<Float>, fs: seq<Float>)
    requires GetString(f, "windowId").Ok? && GetString(f, "messageId").Ok? && GetString(f, "entityId").Ok?
    requires "position" in f && f["position"] == FloatList(pos) && |pos| == 3
    requires "rotation" in f && f["rotation"] == FloatList(fs) && |fs| != 4
    ensures DecodeEntityTransform(Object(f)) == Err(WrongCount("rotation", 4))
  {
  }

  /** A scale list that is not of length 3 is rejected, once the keys before it decode. */
  lemma ScaleArityChecked(f: map<string, Value>, pos: seq<Float>, rot: seq<Float>, fs: seq<Float>)
    requires GetString(f, "windowId").Ok? && GetString(f, "messageId").Ok? && GetString(f, "entityId").Ok?
    requires "position" in f && f["position"] == FloatList(pos) && |pos| == 3
    requires "rotation" in f && f["rotation"] == FloatList(rot) && |rot| == 4
    requires "scale" in f && f["scale"] == FloatList(fs) && |fs| != 3
    ensures DecodeEntityTransform(Object(f)) == Err(WrongCount("scale", 3))
  {
  }

  /** The synthesized `Encodable` conformance of the lifecycle message. */
  function EntityStatePayload(m: EntityStateMessage): Value {
    Object(map[
      "windowId" := Str(m.windowId),
      "messageId" := Str(m.messageId),
      "entityId" := Str(m.entityId),
      "isActive" := Bool(m.isActive),
      "modelName" := Str(m.modelName)])
  }

  /** The synthesized `Decodable` conformance: every key required, in declaration order. */
  function DecodeEntityState(v: Value): (r: Result<EntityStateMessage, DecodeError>)
    ensures r.Ok? ==> v.Object? && AgreesWith(v.fields, EntityStatePayload(r.value).fields)
  {
    if !v.Object? then Err(NotAnObject)
    else
      var f := v.fields;
      var windowId :- GetString(f, "windowId");
      var messageId :- GetString(f, "messageId");
      var entityId :- GetString(f, "entityId");
      var isActive :- GetBool(f, "isActive");
      var modelName :- GetString(f, "modelName");
      Ok(EntityStateMessage(windowId, messageId, entityId, isActive, modelName))
  }

  lemma EntityStateRoundTrip(m: EntityStateMessage)
    ensures DecodeEntityState(EntityStatePayload(m)) == Ok(m)
  {
  }
}
