/**
 * The Tag record of internal/user/model/tags.go. A tag is a "system" tag or
 * a user's "custom" tag; UpdateTag assigns its fields in place, so it is a
 * class with a `Row()` snapshot, as in PriceModel. Times are Unix seconds.
 */
module TagModel {

  datatype TagRow = TagRow(
    id: int,
    name: string,
    description: string,
    category: string,
    color: string,
    icon: string,
    tagType: string,
    active: bool,
    usageCount: int,
    ownerID: int,
    createdAt: int,
    updatedAt: int)

  class Tag {
    var id: int
    var name: string
    var description: string
    var category: string
    var color: string
    var icon: string
    var tagType: string
    var active: bool
    var usageCount: int
    var ownerID: int
    var createdAt: int
    var updatedAt: int

    constructor (r: TagRow)
      ensures Row() == r
    {
      id, name, description, category := r.id, r.name, r.description, r.category;
      color, icon, tagType, active := r.color, r.icon, r.tagType, r.active;
      usageCount, ownerID, createdAt, updatedAt := r.usageCount, r.ownerID, r.createdAt, r.updatedAt;
    }

    function Row(): TagRow
      reads this
    {
      TagRow(id, name, description, category, color, icon, tagType, active, usageCount, ownerID, createdAt, updatedAt)
    }
  }
}
