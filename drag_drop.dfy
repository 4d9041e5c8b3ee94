/**
  What the drag-and-drop library reports to an `onDragEnd` handler: where the
  dragged item came from and where it was dropped.
 */
module DragDrop {
  import opened Lists

  /** A droppable list and a position in it. */
  datatype Location = Location(droppableId: string, index: nat)

  /** The end of a drag; no destination means the item was dropped outside every list. */
  datatype DropResult = DropResult(source: Location, destination: Option<Location>)

}
