/** The timeline's data: items and the small enumerations shared by the components. */
module Items {
  import opened Calendar

  /**
   * A timeline item: its dates are inclusive day numbers. An empty
   * `colorScheme` stands for an item that was given none.
   */
  datatype Item = Item(id: int, start: Date, end: Date, name: string, colorScheme: string)

  /** The edge a resize handle drags. */
  datatype Direction = Left | Right
}
