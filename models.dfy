/**
 * The two data shapes of the game: a claimed box and a player.
 * A box's anchor point and bounding lines are kept as opaque type
 * parameters, because their shape is not part of this model.
 */
module Models {

  /** A completed grid cell: its anchor corner and the lines that bound it. */
  datatype Box<Point, Line> = Box(initialPoint: Point, lines: seq<Line>)

  /**
   * A player record. It is an object, not a value: the store's current-player
   * slot refers to the same record as playerA or playerB, and the rule logic
   * outside the store grows `boxes` in place.
   */
  class Player<Point, Line> {
    var id: string
    var name: string
    var color: string
    var boxes: seq<Box<Point, Line>>

    constructor (id: string, name: string, color: string, boxes: seq<Box<Point, Line>>)
      ensures this.id == id && this.name == name && this.color == color && this.boxes == boxes
    {
      this.id := id;
      this.name := name;
      this.color := color;
      this.boxes := boxes;
    }
  }
}
