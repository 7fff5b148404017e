/** Records embedded in several of the fetched entities. */
module Records {

  /** The `{ id, name }` reference by which a rocket, satellite or mission names its organization. */
  datatype OrgRef = OrgRef(id: int, name: string)
}
