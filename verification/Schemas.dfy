/**
 * The serialization schema of a physical 2D object: which attributes are sent
 * to clients and with which serializer type. The byte layout of each type is
 * not part of this model; a type tag is only a name.
 */
module Schemas {

  /** The serializer types this schema uses; any other tag is kept by its name. */
  datatype TypeTag = Int16 | Float32 | ClassInstance | Other(name: string)

  type Schema = map<string, TypeTag>

  /** The attributes a physical 2D object declares itself. */
  const OwnScheme: Schema := map[
    "playerId" := Int16,
    "position" := ClassInstance,
    "angle" := Float32,
    "velocity" := ClassInstance,
    "angularVelocity" := Float32
  ]

  /**
   * The `netScheme` getter: the own attributes merged with the schema the
   * superclass reports. The superclass's entries are written last, so on a name
   * collision the inherited entry wins.
   */
  function NetScheme(inherited: Schema): (r: Schema)
    ensures r.Keys == OwnScheme.Keys + inherited.Keys
    ensures forall k :: k in inherited ==> r[k] == inherited[k]
    ensures forall k :: k in OwnScheme && k !in inherited ==> r[k] == OwnScheme[k]
  {
    OwnScheme + inherited
  }

  /**
   * A subclass that follows the documented pattern (its own attributes merged
   * under this class's schema) still sends every attribute of this class and of
   * its ancestors, and every ancestor entry keeps the ancestor's type.
   */
  lemma SubclassKeepsBaseAttributes(subOwn: Schema, inherited: Schema)
    ensures OwnScheme.Keys + inherited.Keys <= (subOwn + NetScheme(inherited)).Keys
    ensures forall k :: k in inherited ==> (subOwn + NetScheme(inherited))[k] == inherited[k]
    ensures forall k :: k in OwnScheme && k !in inherited ==>
              (subOwn + NetScheme(inherited))[k] == OwnScheme[k]
  {
    var m := NetScheme(inherited);
    forall k | k in inherited
      ensures (subOwn + m)[k] == inherited[k]
    {
      assert k in m;
    }
  }
}
