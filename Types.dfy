/** The item and database records shared by every component (types.d.ts). */
module Types {
  import opened Wrappers

  /** An item's code: JSON numbers and strings are both accepted. */
  datatype ItemValue = NumberValue(n: real) | TextValue(s: string)

  /**
   * A catalog entry. Optional string lists are `[]` when absent and optional
   * flags are `false` when absent: the core only ever tests them for
   * membership or truthiness, where the two coincide.
   */
  datatype Item = Item(
    name: string,
    value: ItemValue,
    priorityKeywords: seq<string>,
    keywords: seq<string>,
    tags: seq<string>,
    uiColor: Option<string>,
    alwaysShowBarcode: bool,
    duplicate: bool,
    ignore: bool)

  /** A remote item database that has already passed schema validation. */
  datatype Db = Db(name: string, version: string, organization: Option<string>, items: seq<Item>)

  /** The part of a database the application remembers about its source. */
  datatype DbInfo = DbInfo(name: string, version: string)
}
