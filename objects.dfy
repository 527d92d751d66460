// Headers/Object.h and Headers/Light.h: the named scene objects a Scene keeps, and
// the light record whose type decides whether it casts a spot-light shadow. A Mesh or
// a Light holds its Object part as a field, in place of C++ inheritance. Transforms
// (position, rotation, scale, the model matrix) are glm float math and are not
// modelled.
module Objects {
  import opened Common

  /** OBJECT_TYPE, with the values of its enumerators. */
  datatype ObjectType = MeshObject | DirectionalLight | PointLight | SpotLight

  function ObjectTypeValue(t: ObjectType): (r: nat)
    ensures r < 4
  {
    match t
    case MeshObject => 0
    case DirectionalLight => 1
    case PointLight => 2
    case SpotLight => 3
  }

  /** The numeric type a light's data must carry for the scene to treat it as a spot light. */
  const SpotLightTypeValue: nat := 3

  lemma ObjectTypeValues()
    ensures forall t: ObjectType :: ObjectTypeValue(t) == SpotLightTypeValue <==> t == SpotLight
    ensures forall s: ObjectType, t: ObjectType :: ObjectTypeValue(s) == ObjectTypeValue(t) ==> s == t
  {
  }

  class Object {
    /** m_Name: the scene rewrites it when the name is already taken. */
    var name: string

    /** Object(name). */
    constructor (name: string)
      ensures this.name == name
    {
      this.name := name;
    }

    /** SetName. */
    method SetName(newName: string)
      modifies this
      ensures name == newName
    {
      name := newName;
    }
  }

  /** LightData: the per-light record copied into the lights uniform buffer. lightType
      is the uint32_t m_Type. */
  datatype LightData = LightData(
    color: Vec4,
    position: Vec4,
    direction: Vec4,
    radius: real,
    angle: real,
    intensity: real,
    attenuation: real,
    lightType: nat)

  /** A point is stored with w = 1 (SetPosition). */
  function AsPoint(position: Vec4): (r: Vec4)
    ensures r.x == position.x && r.y == position.y && r.z == position.z && r.w == 1.0
  {
    Vec4(position.x, position.y, position.z, 1.0)
  }

  /** Conversion of a mathematical integer to int (C++ modular conversion, the rule since
      C++20): the value congruent to x modulo 2^32 in [-2^31, 2^31). It is how
      static_cast<OBJECT_TYPE> reads a uint32_t, OBJECT_TYPE's underlying type being int. */
  function Signed32(x: int): (r: int)
    ensures -0x8000_0000 <= r < 0x8000_0000
    ensures (r - x) % U32Modulus == 0
  {
    var w := Wrap32(x);
    if w < 0x8000_0000 then w else w - U32Modulus
  }

  /** A uint32_t that fits in int keeps its value; converting back to uint32_t restores it. */
  lemma Signed32RoundTrip(x: nat)
    requires x < U32Modulus
    ensures x < 0x8000_0000 ==> Signed32(x) == x
    ensures Wrap32(Signed32(x)) == x
  {
  }

  /** A light's Object type names the same enumerator as its data type exactly when the
      data's uint32_t holds that enumerator's value. */
  lemma BaseTypeMatchesData(lightType: nat, t: ObjectType)
    requires lightType < U32Modulus
    ensures Signed32(lightType) == ObjectTypeValue(t) <==> lightType == ObjectTypeValue(t)
  {
  }

  class Light {
    const baseObject: Object
    /** Object::m_Type of the light, as the constructor set it from the data; the Object
        part of a Mesh never sets it, so the model carries it only here. */
    var baseType: int
    /** m_Data. */
    var data: LightData
    /** m_LuminousFlow, in lumen. */
    var luminousFlow: real
    /** m_Direction: the light's direction before rotation. */
    var direction: Vec4

    /** Light(luminousFlow, name, data): keeps the data, with the position turned into a
        point by SetPosition, the origin direction (0, 0, 1, 0) and the flow; the Object
        type is the data's uint32_t type read as OBJECT_TYPE. */
    constructor (luminousFlow: real, name: string, data: LightData)
      ensures fresh(baseObject) && baseObject.name == name
      ensures this.data == data.(position := AsPoint(data.position))
      ensures baseType == Signed32(data.lightType)
      ensures this.luminousFlow == luminousFlow && direction == Vec4(0.0, 0.0, 1.0, 0.0)
    {
      baseObject := new Object(name);
      this.data := data.(position := AsPoint(data.position));
      this.luminousFlow := luminousFlow;
      baseType := Signed32(data.lightType);
      direction := Vec4(0.0, 0.0, 1.0, 0.0);
    }

    /** GetType: the type stored in the light's data. */
    function LightType(): nat
      reads this
    {
      data.lightType
    }

    /** SetType(int): the int is stored into the data's uint32_t type; nothing else
        changes, the Object type included, so the two can disagree afterwards. */
    method SetType(lightType: int)
      modifies this
      ensures data == old(data).(lightType := Wrap32(lightType))
      ensures luminousFlow == old(luminousFlow) && direction == old(direction) && baseType == old(baseType)
    {
      data := data.(lightType := Wrap32(lightType));
    }
  }
}
