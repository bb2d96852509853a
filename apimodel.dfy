/** The container as the GraphQL API returns it (src/api/model.rs). */
module ApiModel {
  import opened Entities

  datatype Container = Container(
    id: string,
    name: string,
    image: string,
    createdAt: Timestamp,
    updatedAt: Timestamp)

  /** `From<ContainerEntity> for Container`: total, field for field. */
  function FromEntity(e: ContainerEntity): (c: Container)
    ensures c.id == e.id
    ensures c.name == e.name && c.image == e.image
    ensures c.createdAt == e.createdAt && c.updatedAt == e.updatedAt
  {
    Container(e.id, e.name, e.image, e.createdAt, e.updatedAt)
  }

  /** `entities.into_iter().map(Container::from).collect()`: one container per entity, in order. */
  function FromEntities(es: seq<ContainerEntity>): (cs: seq<Container>)
    ensures |cs| == |es|
    ensures forall i :: 0 <= i < |es| ==> cs[i] == FromEntity(es[i])
  {
    if es == [] then [] else [FromEntity(es[0])] + FromEntities(es[1..])
  }

  /** Distinct entities stay distinct: the conversion drops nothing. */
  lemma FromEntityInjective(a: ContainerEntity, b: ContainerEntity)
    ensures FromEntity(a) == FromEntity(b) ==> a == b
  {
  }
}
