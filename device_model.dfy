/**
 * The device records of internal/device/model/device.go that the device
 * services read and change: templates with their field schema, categories
 * and devices. The service code loads a record, assigns some of its fields
 * and hands it back to the repository, so each record is a class whose
 * fields the service methods update; `Row()` is a value snapshot of those
 * fields that the contracts compare before and after.
 */
module DeviceModel {
  import opened Common
  import opened Dates

  /** One field of a template's schema (TemplateField). */
  datatype TemplateField = TemplateField(
    name: string,
    fieldLabel: string,
    fieldType: string,
    required: bool,
    defaultValue: string,
    validationRules: string,
    options: seq<string>,
    placeholder: string,
    helpText: string)

  /** The stored fields of a DeviceTemplate; the field schema is held decoded. */
  datatype TemplateRow = TemplateRow(
    id: int,
    name: string,
    description: string,
    icon: string,
    fields: seq<TemplateField>,
    categoryID: int,
    isActive: bool,
    useCount: int)

  class DeviceTemplate {
    var id: int
    var name: string
    var description: string
    var icon: string
    var fields: seq<TemplateField>
    var categoryID: int
    var isActive: bool
    var useCount: int

    constructor (r: TemplateRow)
      ensures Row() == r
    {
      id, name, description, icon := r.id, r.name, r.description, r.icon;
      fields, categoryID, isActive, useCount := r.fields, r.categoryID, r.isActive, r.useCount;
    }

    function Row(): TemplateRow
      reads this
    {
      TemplateRow(id, name, description, icon, fields, categoryID, isActive, useCount)
    }
  }

  /** The stored fields of a Category; `kind` is the Type column (system or custom). */
  datatype CategoryRow = CategoryRow(
    id: int,
    name: string,
    description: string,
    parentID: int,
    icon: string,
    color: string,
    sortOrder: int,
    kind: string,
    userID: int,
    isActive: bool,
    deviceCount: int)

  class Category {
    var id: int
    var name: string
    var description: string
    var parentID: int
    var icon: string
    var color: string
    var sortOrder: int
    var kind: string
    var userID: int
    var isActive: bool
    var deviceCount: int
    /** Child categories, filled in when a flat list is turned into a tree. */
    var children: seq<Category>

    constructor (r: CategoryRow)
      ensures Row() == r && children == []
    {
      id, name, description, parentID := r.id, r.name, r.description, r.parentID;
      icon, color, sortOrder, kind := r.icon, r.color, r.sortOrder, r.kind;
      userID, isActive, deviceCount := r.userID, r.isActive, r.deviceCount;
      children := [];
    }

    function Row(): CategoryRow
      reads this
    {
      CategoryRow(id, name, description, parentID, icon, color, sortOrder, kind, userID, isActive, deviceCount)
    }
  }

  /** The stored fields of a Device; an unset warranty or sale date is None. */
  datatype DeviceRow = DeviceRow(
    id: int,
    userID: int,
    templateID: int,
    categoryID: int,
    name: string,
    brand: string,
    model: string,
    serialNumber: string,
    color: string,
    storage: string,
    memory: string,
    processor: string,
    screenSize: string,
    purchasePrice: real,
    currentValue: real,
    purchaseDate: Date,
    warrantyDate: Option<Date>,
    condition: string,
    status: string,
    salePrice: real,
    saleDate: Option<Date>,
    notes: string,
    specifications: string)

  class Device {
    var id: int
    var userID: int
    var templateID: int
    var categoryID: int
    var name: string
    var brand: string
    var model: string
    var serialNumber: string
    var color: string
    var storage: string
    var memory: string
    var processor: string
    var screenSize: string
    var purchasePrice: real
    var currentValue: real
    var purchaseDate: Date
    var warrantyDate: Option<Date>
    var condition: string
    var status: string
    var salePrice: real
    var saleDate: Option<Date>
    var notes: string
    var specifications: string

    constructor (r: DeviceRow)
      ensures Row() == r
    {
      id, userID, templateID, categoryID := r.id, r.userID, r.templateID, r.categoryID;
      name, brand, model, serialNumber := r.name, r.brand, r.model, r.serialNumber;
      color, storage, memory, processor, screenSize := r.color, r.storage, r.memory, r.processor, r.screenSize;
      purchasePrice, currentValue, purchaseDate, warrantyDate := r.purchasePrice, r.currentValue, r.purchaseDate, r.warrantyDate;
      condition, status, salePrice, saleDate := r.condition, r.status, r.salePrice, r.saleDate;
      notes, specifications := r.notes, r.specifications;
    }

    function Row(): DeviceRow
      reads this
    {
      DeviceRow(id, userID, templateID, categoryID, name, brand, model, serialNumber, color, storage,
                memory, processor, screenSize, purchasePrice, currentValue, purchaseDate, warrantyDate,
                condition, status, salePrice, saleDate, notes, specifications)
    }
  }
}
