/**
 * The data model of the campus map: points of interest (POIs), their
 * categories and their coordinates.
 */
module Places {
  import opened Options

  /** The closed set of POI categories. */
  datatype Category = Academic | Dining | Recreation | Services | Transportation | Emergency

  /**
   * The category selector of the sidebar: the entry `'all'` or one category.
   * The source keeps this as a string; the buttons only ever set one of these seven values.
   */
  datatype CategoryFilter = AllCategories | OnlyCategory(category: Category)

  /** A (latitude, longitude) pair. The component does no arithmetic on it. */
  datatype Coord = Coord(lat: real, lng: real)

  /** One point of interest. */
  datatype POI = POI(
    id: string,
    name: string,
    category: Category,
    coordinates: Coord,
    description: string,
    isAccessible: bool,
    isEssential: bool,
    hours: Option<string>,
    floor: Option<string>)
}
